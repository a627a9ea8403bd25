/** MD5 on texts of the test suite in section A.5 of RFC 1321, worked out turn by turn. */
module Md5Vectors {
  import opened Bytes
  import opened Md5Rounds
  import opened Md5

  // The round functions bit by bit: F takes c where b is set and d elsewhere, G takes b where d is set and
  // c elsewhere, H is the parity, I is the complement of c where d is clear.

  lemma BitLawsOfF(b: word, c: word, d: word)
    ensures F(b, c, d) & b == c & b && F(b, c, d) & !b == d & !b
  {
  }

  lemma BitLawsOfG(b: word, c: word, d: word)
    ensures G(b, c, d) & d == b & d && G(b, c, d) & !d == c & !d
  {
  }

  lemma BitLawsOfH(b: word, c: word, d: word)
    ensures H(b, c, d) & (b ^ c) == !d & (b ^ c) && H(b, c, d) & !(b ^ c) == d & !(b ^ c)
  {
  }

  lemma BitLawsOfI(b: word, c: word, d: word)
    ensures I(b, c, d) & d == (b ^ c) & d && I(b, c, d) & !d == !c & !d
  {
  }

  /** One turn more, from its parts: the mixed word g, the message word k, the sine t, the sums a + g,
      a + g + k and a + g + k + t, the last rotated, and the result. */
  lemma Next(x: Block, n: nat, a: word, b: word, c: word, d: word, g: word, k: word, t: word,
             s1: word, s2: word, s3: word, r: word, q: word)
    requires n < 64 && Turns(INITIAL, x, n) == Regs(a, b, c, d)
    requires Mix(n, b, c, d) == g && x[WordIndex(n)] == k && Sine(n) == t
    requires Add(a, g) == s1 && Add(s1, k) == s2 && Add(s2, t) == s3 && Shift(s3, Amount(n)) == r && Add(b, r) == q
    ensures Turns(INITIAL, x, n + 1) == Regs(d, q, b, c)
  {
    hide Mix, Add, Sine, Shift, Amount, WordIndex;
  }

  lemma NoTurns(x: Block)
    ensures Turns(INITIAL, x, 0) == Regs(0x67452301, 0xefcdab89, 0x98badcfe, 0x10325476)
  {
  }

  // Empty

  const EMPTY_BLOCK: Block := [0x80, 0, 0, 0, 0, 0, 0, 0, 0, 0, 0, 0, 0, 0, 0, 0]

  lemma Empty4()
    ensures Turns(INITIAL, EMPTY_BLOCK, 4) == Regs(0xa5202774, 0x1b163203, 0xe7f06b23, 0xf59592dd)
  {
    hide Turns;
    NoTurns(EMPTY_BLOCK);
    Next(EMPTY_BLOCK, 0, 0x67452301, 0xefcdab89, 0x98badcfe, 0x10325476,
         0x98badcfe, 0x80, 0xd76aa478, 0xffffffff, 0x0000007f, 0xd76aa4f7, 0xb5527beb, 0xa5202774);
    Next(EMPTY_BLOCK, 1, 0x10325476, 0xa5202774, 0xefcdab89, 0x98badcfe,
         0xbd9afb8a, 0x0, 0xe8c7b756, 0xcdcd5000, 0xcdcd5000, 0xb6950756, 0x50756b69, 0xf59592dd);
    Next(EMPTY_BLOCK, 2, 0x98badcfe, 0xf59592dd, 0xa5202774, 0xefcdab89,
         0xaf482b54, 0x0, 0x242070db, 0x48030852, 0x48030852, 0x6c23792d, 0xf25ad846, 0xe7f06b23);
    Next(EMPTY_BLOCK, 3, 0xefcdab89, 0xe7f06b23, 0xf59592dd, 0xa5202774,
         0xe5900655, 0x0, 0xc1bdceee, 0xd55db1de, 0xd55db1de, 0x971b80cc, 0x3325c6e0, 0x1b163203);
  }

  lemma Empty8()
    ensures Turns(INITIAL, EMPTY_BLOCK, 8) == Regs(0x32033344, 0x9bc13ce9, 0xf5b158db, 0x2f35d494)
  {
    hide Turns;
    Empty4();
    Next(EMPTY_BLOCK, 4, 0xa5202774, 0x1b163203, 0xe7f06b23, 0xf59592dd,
         0xe791a2df, 0x0, 0xf57c0faf, 0x8cb1ca53, 0x8cb1ca53, 0x822dda02, 0x16ed0141, 0x32033344);
    Next(EMPTY_BLOCK, 5, 0xf59592dd, 0x32033344, 0x1b163203, 0xe7f06b23,
         0xd7f27a23, 0x0, 0x4787c62a, 0xcd880d00, 0xcd880d00, 0x150fd32a, 0xfd32a150, 0x2f35d494);
    Next(EMPTY_BLOCK, 6, 0xe7f06b23, 0x2f35d494, 0x32033344, 0x1b163203,
         0x32033207, 0x0, 0xa8304613, 0x19f39d2a, 0x19f39d2a, 0xc223e33d, 0xc67b8447, 0xf5b158db);
    Next(EMPTY_BLOCK, 7, 0x1b163203, 0xf5b158db, 0x2f35d494, 0x32033344,
         0x27337394, 0x0, 0xfd469501, 0x4249a597, 0x4249a597, 0x3f903a98, 0xa60fe40e, 0x9bc13ce9);
  }

  lemma Empty12()
    ensures Turns(INITIAL, EMPTY_BLOCK, 12) == Regs(0x3893b991, 0x70768a29, 0xe1ef0576, 0xfce4a312)
  {
    hide Turns;
    Empty8();
    Next(EMPTY_BLOCK, 8, 0x32033344, 0x9bc13ce9, 0xf5b158db, 0x2f35d494,
         0xb5b5d8dd, 0x0, 0x698098d8, 0xe7b90c21, 0xe7b90c21, 0x5139a4f9, 0x9cd27ca8, 0x3893b991);
    Next(EMPTY_BLOCK, 9, 0x2f35d494, 0x3893b991, 0x9bc13ce9, 0xf5b158db,
         0xdda178cb, 0x0, 0x8b44f7af, 0x0cd74d5f, 0x0cd74d5f, 0x981c450e, 0xc450e981, 0xfce4a312);
    Next(EMPTY_BLOCK, 10, 0xf5b158db, 0xfce4a312, 0x3893b991, 0x9bc13ce9,
         0x3b81bdf9, 0x0, 0xffff5bb1, 0x313316d4, 0x313316d4, 0x31327285, 0xe50a6264, 0xe1ef0576);
    Next(EMPTY_BLOCK, 11, 0x9bc13ce9, 0xe1ef0576, 0xfce4a312, 0x3893b991,
         0xf8f4b993, 0x0, 0x895cd7be, 0x94b5f67c, 0x94b5f67c, 0x1e12ce3a, 0x8e8784b3, 0x70768a29);
  }

  lemma Empty16()
    ensures Turns(INITIAL, EMPTY_BLOCK, 16) == Regs(0xf56c7cf1, 0xd6819c6a, 0x5aa53f75, 0x374943a7)
  {
    hide Turns;
    Empty12();
    Next(EMPTY_BLOCK, 12, 0x3893b991, 0x70768a29, 0xe1ef0576, 0xfce4a312,
         0xece62132, 0x0, 0x6b901122, 0x2579dac3, 0x2579dac3, 0x9109ebe5, 0x84f5f2c8, 0xf56c7cf1);
    Next(EMPTY_BLOCK, 13, 0xfce4a312, 0xf56c7cf1, 0x70768a29, 0xe1ef0576,
         0x70e70927, 0x0, 0xfd987193, 0x6dcbac39, 0x6dcbac39, 0x6b641dcc, 0x41dcc6b6, 0x374943a7);
    Next(EMPTY_BLOCK, 14, 0xe1ef0576, 0x374943a7, 0xf56c7cf1, 0x70768a29,
         0x757ec8a9, 0x0, 0xa679438e, 0x576dce1f, 0x576dce1f, 0xfde711ad, 0x235bfbce, 0x5aa53f75);
    Next(EMPTY_BLOCK, 15, 0x70768a29, 0x5aa53f75, 0x374943a7, 0xf56c7cf1,
         0xb74943a5, 0x0, 0x49b40821, 0x27bfcdce, 0x27bfcdce, 0x7173d5ef, 0x7bdc5cf5, 0xd6819c6a);
  }

  lemma Empty20()
    ensures Turns(INITIAL, EMPTY_BLOCK, 20) == Regs(0x1c7d7513, 0xbd782e17, 0xc095f13a, 0x7bd57a3a)
  {
    hide Turns;
    Empty16();
    Next(EMPTY_BLOCK, 16, 0xf56c7cf1, 0xd6819c6a, 0x5aa53f75, 0x374943a7,
         0x5ea53c72, 0x0, 0xf61e2562, 0x5411b963, 0x5411b963, 0x4a2fdec5, 0x45fbd8a9, 0x1c7d7513);
    Next(EMPTY_BLOCK, 17, 0x374943a7, 0x1c7d7513, 0xd6819c6a, 0x5aa53f75,
         0x9c25b51b, 0x0, 0xc040b340, 0xd36ef8c2, 0xd36ef8c2, 0x93afac02, 0x5f580527, 0x7bd57a3a);
    Next(EMPTY_BLOCK, 18, 0x5aa53f75, 0x7bd57a3a, 0x1c7d7513, 0xd6819c6a,
         0x5afd793b, 0x0, 0x265e5a51, 0xb5a2b8b0, 0xb5a2b8b0, 0xdc011301, 0x44c07700, 0xc095f13a);
    Next(EMPTY_BLOCK, 19, 0xd6819c6a, 0xc095f13a, 0x7bd57a3a, 0x1c7d7513,
         0x63957b3a, 0x80, 0xe9b6c7aa, 0x3a1717a4, 0x3a171824, 0x23cddfce, 0xfce23cdd, 0xbd782e17);
  }

  lemma Empty24()
    ensures Turns(INITIAL, EMPTY_BLOCK, 24) == Regs(0x3d1e3e6c, 0xe422531a, 0xeb41643e, 0x68b7b3e3)
  {
    hide Turns;
    Empty20();
    Next(EMPTY_BLOCK, 20, 0x1c7d7513, 0xbd782e17, 0xc095f13a, 0x7bd57a3a,
         0xb950ab12, 0x0, 0xd62f105d, 0xd5ce2025, 0xd5ce2025, 0xabfd3082, 0x7fa61055, 0x3d1e3e6c);
    Next(EMPTY_BLOCK, 21, 0x7bd57a3a, 0x3d1e3e6c, 0xbd782e17, 0xc095f13a,
         0x3d7c3e2d, 0x0, 0x02441453, 0xb951b867, 0xb951b867, 0xbb95ccba, 0x2b997577, 0x68b7b3e3);
    Next(EMPTY_BLOCK, 22, 0xc095f13a, 0x68b7b3e3, 0x3d1e3e6c, 0xbd782e17,
         0x2836326b, 0x0, 0xd8a1e681, 0xe8cc23a5, 0xe8cc23a5, 0xc16e0a26, 0x8289b05b, 0xeb41643e);
    Next(EMPTY_BLOCK, 23, 0xbd782e17, 0xeb41643e, 0x68b7b3e3, 0x3d1e3e6c,
         0x69a1a5af, 0x0, 0xe7d3fbc8, 0x2719d3c6, 0x2719d3c6, 0x0eedcf8e, 0xf8e0eedc, 0xe422531a);
  }

  lemma Empty28()
    ensures Turns(INITIAL, EMPTY_BLOCK, 28) == Regs(0x306ec122, 0xa0572807, 0xa3c663da, 0xd28c77c2)
  {
    hide Turns;
    Empty24();
    Next(EMPTY_BLOCK, 24, 0x3d1e3e6c, 0xe422531a, 0xeb41643e, 0x68b7b3e3,
         0xe362571e, 0x0, 0x21e1cde6, 0x2080958a, 0x2080958a, 0x42626370, 0x4c4c6e08, 0x306ec122);
    Next(EMPTY_BLOCK, 25, 0x68b7b3e3, 0x306ec122, 0xe422531a, 0xeb41643e,
         0x24625322, 0x0, 0xc33707d6, 0x8d1a0705, 0x8d1a0705, 0x50510edb, 0xa21db6a0, 0xd28c77c2);
    Next(EMPTY_BLOCK, 26, 0xeb41643e, 0xd28c77c2, 0x306ec122, 0xe422531a,
         0xd04cd322, 0x0, 0xf4d50d87, 0xbb8e3760, 0xbb8e3760, 0xb06344e7, 0xd139ec18, 0xa3c663da);
    Next(EMPTY_BLOCK, 27, 0xe422531a, 0xa3c663da, 0xd28c77c2, 0x306ec122,
         0xe2c677c2, 0x0, 0x455a14ed, 0xc6e8cadc, 0xc6e8cadc, 0x0c42dfc9, 0xfc90c42d, 0xa0572807);
  }

  lemma Empty32()
    ensures Turns(INITIAL, EMPTY_BLOCK, 32) == Regs(0x13707036, 0xa2205f1f, 0x1c31c384, 0xae7813db)
  {
    hide Turns;
    Empty28();
    Next(EMPTY_BLOCK, 28, 0x306ec122, 0xa0572807, 0xa3c663da, 0xd28c77c2,
         0xa146201a, 0x0, 0xa9e3e905, 0xd1b4e13c, 0xd1b4e13c, 0x7b98ca41, 0x7319482f, 0x13707036);
    Next(EMPTY_BLOCK, 29, 0xd28c77c2, 0x13707036, 0xa0572807, 0xa3c663da,
         0x03516817, 0x0, 0xfcefa3f8, 0xd5dddfd9, 0xd5dddfd9, 0xd2cd83d1, 0x9b07a3a5, 0xae7813db);
    Next(EMPTY_BLOCK, 30, 0xa3c663da, 0xae7813db, 0x13707036, 0xa0572807,
         0xb3705033, 0x0, 0x676f02d9, 0x5736b40d, 0x5736b40d, 0xbea5b6e6, 0x6db9afa9, 0x1c31c384);
    Next(EMPTY_BLOCK, 31, 0xa0572807, 0x1c31c384, 0xae7813db, 0x13707036,
         0xbc3843cd, 0x0, 0x8d2a4c8a, 0x5c8f6bd4, 0x5c8f6bd4, 0xe9b9b85e, 0x85ee9b9b, 0xa2205f1f);
  }

  lemma Empty36()
    ensures Turns(INITIAL, EMPTY_BLOCK, 36) == Regs(0xdf63eaa1, 0x004b6669, 0x12f3e755, 0xc3689f5b)
  {
    hide Turns;
    Empty32();
    Next(EMPTY_BLOCK, 32, 0x13707036, 0xa2205f1f, 0x1c31c384, 0xae7813db,
         0x10698f40, 0x0, 0xfffa3942, 0x23d9ff76, 0x23d9ff76, 0x23d438b8, 0x3d438b82, 0xdf63eaa1);
    Next(EMPTY_BLOCK, 33, 0xae7813db, 0xdf63eaa1, 0xa2205f1f, 0x1c31c384,
         0x6172763a, 0x0, 0x8771f681, 0x0fea8a15, 0x0fea8a15, 0x975c8096, 0xe404b4ba, 0xc3689f5b);
    Next(EMPTY_BLOCK, 34, 0x1c31c384, 0xc3689f5b, 0xdf63eaa1, 0xa2205f1f,
         0xbe2b2ae5, 0x0, 0x6d9d6122, 0xda5cee69, 0xda5cee69, 0x47fa4f8b, 0x4f8b47fa, 0x12f3e755);
    Next(EMPTY_BLOCK, 35, 0xa2205f1f, 0x12f3e755, 0xc3689f5b, 0xdf63eaa1,
         0x0ef892af, 0x0, 0xfde5380c, 0xb118f1ce, 0xb118f1ce, 0xaefe29da, 0xed577f14, 0x004b6669);
  }

  lemma Empty40()
    ensures Turns(INITIAL, EMPTY_BLOCK, 40) == Regs(0x5f7a9b2e, 0xc5dc8c15, 0x91ca4cb7, 0xabc34e16)
  {
    hide Turns;
    Empty36();
    Next(EMPTY_BLOCK, 36, 0xdf63eaa1, 0x004b6669, 0x12f3e755, 0xc3689f5b,
         0xd1d01e67, 0x0, 0xa4beea44, 0xb1340908, 0xb1340908, 0x55f2f34c, 0x5f2f34c5, 0x5f7a9b2e);
    Next(EMPTY_BLOCK, 37, 0xc3689f5b, 0x5f7a9b2e, 0x004b6669, 0x12f3e755,
         0x4dc21a12, 0x0, 0x4bdecfa9, 0x112ab96d, 0x112ab96d, 0x5d098916, 0x4c48b2e8, 0xabc34e16);
    Next(EMPTY_BLOCK, 38, 0x12f3e755, 0xabc34e16, 0x5f7a9b2e, 0x004b6669,
         0xf4f2b351, 0x0, 0xf6bb4b60, 0x07e69aa6, 0x07e69aa6, 0xfea1e606, 0xe606fea1, 0x91ca4cb7);
    Next(EMPTY_BLOCK, 39, 0x004b6669, 0x91ca4cb7, 0xabc34e16, 0x5f7a9b2e,
         0x6573998f, 0x0, 0xbebfbc70, 0x65befff8, 0x65befff8, 0x247ebc68, 0x34123f5e, 0xc5dc8c15);
  }

  lemma Empty44()
    ensures Turns(INITIAL, EMPTY_BLOCK, 44) == Regs(0x4497169d, 0x0fe32453, 0xfd95f243, 0x76fd93d4)
  {
    hide Turns;
    Empty40();
    Next(EMPTY_BLOCK, 40, 0x5f7a9b2e, 0xc5dc8c15, 0x91ca4cb7, 0xabc34e16,
         0xffd58eb4, 0x0, 0x289b7ec6, 0x5f5029e2, 0x5f5029e2, 0x87eba8a8, 0x7eba8a88, 0x4497169d);
    Next(EMPTY_BLOCK, 41, 0xabc34e16, 0x4497169d, 0xc5dc8c15, 0x91ca4cb7,
         0x1081d63f, 0x80, 0xeaa127fa, 0xbc452455, 0xbc4524d5, 0xa6e64ccf, 0x32667d37, 0x76fd93d4);
    Next(EMPTY_BLOCK, 42, 0x91ca4cb7, 0x76fd93d4, 0x4497169d, 0xc5dc8c15,
         0xf7b6095c, 0x0, 0xd4ef3085, 0x89805613, 0x89805613, 0x5e6f8698, 0x86985e6f, 0xfd95f243);
    Next(EMPTY_BLOCK, 43, 0xc5dc8c15, 0xfd95f243, 0x76fd93d4, 0x4497169d,
         0xcfff770a, 0x0, 0x04881d05, 0x95dc031f, 0x95dc031f, 0x9a642024, 0x124d3210, 0x0fe32453);
  }

  lemma Empty48()
    ensures Turns(INITIAL, EMPTY_BLOCK, 48) == Regs(0x3f55edfd, 0xca7d2dbd, 0x68d84ea2, 0x22a31f54)
  {
    hide Turns;
    Empty44();
    Next(EMPTY_BLOCK, 44, 0x4497169d, 0x0fe32453, 0xfd95f243, 0x76fd93d4,
         0x848b45c4, 0x0, 0xd9d4d039, 0xc9225c61, 0xc9225c61, 0xa2f72c9a, 0x2f72c9aa, 0x3f55edfd);
    Next(EMPTY_BLOCK, 45, 0x76fd93d4, 0x3f55edfd, 0x0fe32453, 0xfd95f243,
         0xcd233bed, 0x0, 0xe6db99e5, 0x4420cfc1, 0x4420cfc1, 0x2afc69a6, 0xe34d3157, 0x22a31f54);
    Next(EMPTY_BLOCK, 46, 0xfd95f243, 0x22a31f54, 0x3f55edfd, 0x0fe32453,
         0x1215d6fa, 0x0, 0x1fa27cf8, 0x0fabc93d, 0x0fabc93d, 0x2f4e4635, 0x46352f4e, 0x68d84ea2);
    Next(EMPTY_BLOCK, 47, 0x0fe32453, 0x68d84ea2, 0x22a31f54, 0x3f55edfd,
         0x752ebc0b, 0x0, 0xc4ac5665, 0x8511e05e, 0x8511e05e, 0x49be36c3, 0x61a4df1b, 0xca7d2dbd);
  }

  lemma Empty52()
    ensures Turns(INITIAL, EMPTY_BLOCK, 52) == Regs(0x93aa2577, 0x561e0689, 0xcd85b8cb, 0x1688dc85)
  {
    hide Turns;
    Empty48();
    Next(EMPTY_BLOCK, 48, 0x3f55edfd, 0xca7d2dbd, 0x68d84ea2, 0x22a31f54,
         0xb7a5a31d, 0x80, 0xf4292244, 0xf6fb911a, 0xf6fb919a, 0xeb24b3de, 0xc92cf7ba, 0x93aa2577);
    Next(EMPTY_BLOCK, 49, 0x22a31f54, 0x93aa2577, 0xca7d2dbd, 0x68d84ea2,
         0x5dd298c2, 0x0, 0x432aff97, 0x8075b816, 0x8075b816, 0xc3a0b7ad, 0x82deb70e, 0x1688dc85);
    Next(EMPTY_BLOCK, 50, 0x68d84ea2, 0x1688dc85, 0x93aa2577, 0xca7d2dbd,
         0xa420fbb0, 0x0, 0xab9423a7, 0x0cf94a52, 0x0cf94a52, 0xb88d6df9, 0xb6fcdc46, 0xcd85b8cb);
    Next(EMPTY_BLOCK, 51, 0xca7d2dbd, 0xcd85b8cb, 0x1688dc85, 0x93aa2577,
         0xfb5d264e, 0x0, 0xfc93a039, 0xc5da540b, 0xc5da540b, 0xc26df444, 0x88984dbe, 0x561e0689);
  }

  lemma Empty56()
    ensures Turns(INITIAL, EMPTY_BLOCK, 56) == Regs(0x5625a114, 0x1e77fa61, 0x392ad0d0, 0x3450f42b)
  {
    hide Turns;
    Empty52();
    Next(EMPTY_BLOCK, 52, 0x93aa2577, 0x561e0689, 0xcd85b8cb, 0x1688dc85,
         0x32fa9f30, 0x0, 0x655b59c3, 0xc6a4c4a7, 0xc6a4c4a7, 0x2c001e6a, 0x00079a8b, 0x5625a114);
    Next(EMPTY_BLOCK, 53, 0x1688dc85, 0x5625a114, 0x561e0689, 0xcd85b8cb,
         0x2061e1bd, 0x0, 0x8f0ccc92, 0x36eabe42, 0x36eabe42, 0xc5f78ad4, 0xde2b5317, 0x3450f42b);
    Next(EMPTY_BLOCK, 54, 0xcd85b8cb, 0x3450f42b, 0x5625a114, 0x561e0689,
         0xebd45c6b, 0x0, 0xffeff47d, 0xb95a1536, 0xb95a1536, 0xb94a09b3, 0x04d9dca5, 0x392ad0d0);
    Next(EMPTY_BLOCK, 55, 0x561e0689, 0x392ad0d0, 0x3450f42b, 0x5625a114,
         0x8daa2ad0, 0x0, 0x85845dd1, 0xe3c83159, 0xe3c83159, 0x694c8f2a, 0xe54d2991, 0x1e77fa61);
  }

  lemma Empty60()
    ensures Turns(INITIAL, EMPTY_BLOCK, 60) == Regs(0x474a9c8c, 0x30130182, 0x36594b14, 0xdfce00bc)
  {
    hide Turns;
    Empty56();
    Next(EMPTY_BLOCK, 56, 0x5625a114, 0x1e77fa61, 0x392ad0d0, 0x3450f42b,
         0xe6d52b25, 0x0, 0x6fa87e4f, 0x3cfacc39, 0x3cfacc39, 0xaca34a88, 0x28d2a22b, 0x474a9c8c);
    Next(EMPTY_BLOCK, 57, 0x3450f42b, 0x474a9c8c, 0x1e77fa61, 0x392ad0d0,
         0xd9a845ce, 0x0, 0xfe2ce6e0, 0x0df939f9, 0x0df939f9, 0x0c2620d9, 0x98836430, 0xdfce00bc);
    Next(EMPTY_BLOCK, 58, 0x392ad0d0, 0xdfce00bc, 0x474a9c8c, 0x1e77fa61,
         0xb8849932, 0x0, 0xa3014314, 0xf1af6a02, 0xf1af6a02, 0x94b0ad16, 0x568b4a58, 0x36594b14);
    Next(EMPTY_BLOCK, 59, 0x1e77fa61, 0x36594b14, 0xdfce00bc, 0x474a9c8c,
         0x61336bcb, 0x0, 0x4e0811a1, 0x7fab662c, 0x7fab662c, 0xcdb377cd, 0xf9b9b66e, 0x30130182);
  }

  lemma Empty64()
    ensures Turns(INITIAL, EMPTY_BLOCK, 64) == Regs(0x7246fad3, 0x14e45506, 0xff4ea3eb, 0x6e10a476)
  {
    hide Turns;
    Empty60();
    Next(EMPTY_BLOCK, 60, 0x474a9c8c, 0x30130182, 0x36594b14, 0xdfce00bc,
         0x066ab4d7, 0x0, 0xf7537e82, 0x4db55163, 0x4db55163, 0x4508cfe5, 0x4233f951, 0x7246fad3);
    Next(EMPTY_BLOCK, 61, 0xdfce00bc, 0x7246fad3, 0x30130182, 0x36594b14,
         0xcbf5ff79, 0x0, 0xbd3af235, 0xabc40035, 0xabc40035, 0x68fef26a, 0xfbc9a9a3, 0x6e10a476);
    Next(EMPTY_BLOCK, 62, 0x36594b14, 0x6e10a476, 0x7246fad3, 0x30130182,
         0x9dba04ac, 0x0, 0x2ad7d2bb, 0xd4134fc0, 0xd4134fc0, 0xfeeb227b, 0x913dff75, 0xff4ea3eb);
    Next(EMPTY_BLOCK, 63, 0x30130182, 0xff4ea3eb, 0x6e10a476, 0x7246fad3,
         0x91ef0399, 0x0, 0xeb86d391, 0xc202051b, 0xc202051b, 0xad88d8ac, 0x1595b11b, 0x14e45506);
  }

  // Abc

  const ABC_BLOCK: Block := [0x80636261, 0, 0, 0, 0, 0, 0, 0, 0, 0, 0, 0, 0, 0, 0x18, 0]

  lemma Abc4()
    ensures Turns(INITIAL, ABC_BLOCK, 4) == Regs(0xd6d117b4, 0x7ad956f2, 0x2f6fbd72, 0x344a8432)
  {
    hide Turns;
    NoTurns(ABC_BLOCK);
    Next(ABC_BLOCK, 0, 0x67452301, 0xefcdab89, 0x98badcfe, 0x10325476,
         0x98badcfe, 0x80636261, 0xd76aa478, 0xffffffff, 0x80636260, 0x57ce06d8, 0xe7036c2b, 0xd6d117b4);
    Next(ABC_BLOCK, 1, 0x10325476, 0xd6d117b4, 0xefcdab89, 0x98badcfe,
         0xceebcbca, 0x0, 0xe8c7b756, 0xdf1e2040, 0xdf1e2040, 0xc7e5d796, 0x5d796c7e, 0x344a8432);
    Next(ABC_BLOCK, 2, 0x98badcfe, 0x344a8432, 0xd6d117b4, 0xefcdab89,
         0xdfc52fb9, 0x0, 0x242070db, 0x78800cb7, 0x78800cb7, 0x9ca07d92, 0xfb253940, 0x2f6fbd72);
    Next(ABC_BLOCK, 3, 0xefcdab89, 0x2f6fbd72, 0x344a8432, 0xd6d117b4,
         0xf4da86b6, 0x0, 0xc1bdceee, 0xe4a8323f, 0xe4a8323f, 0xa666012d, 0x4b699980, 0x7ad956f2);
  }

  lemma Abc8()
    ensures Turns(INITIAL, ABC_BLOCK, 8) == Regs(0xc73741ef, 0x928d99f6, 0x207dc67b, 0x8bac3051)
  {
    hide Turns;
    Abc4();
    Next(ABC_BLOCK, 4, 0xd6d117b4, 0x7ad956f2, 0x2f6fbd72, 0x344a8432,
         0x2e4b9472, 0x0, 0xf57c0faf, 0x051cac26, 0x051cac26, 0xfa98bbd5, 0x4c5deafd, 0xc73741ef);
    Next(ABC_BLOCK, 5, 0x344a8432, 0xc73741ef, 0x7ad956f2, 0x2f6fbd72,
         0x6a59fcf2, 0x0, 0x4787c62a, 0x9ea48124, 0x9ea48124, 0xe62c474e, 0xc474ee62, 0x8bac3051);
    Next(ABC_BLOCK, 6, 0x2f6fbd72, 0x8bac3051, 0xc73741ef, 0x7ad956f2,
         0xf37546e3, 0x0, 0xa8304613, 0x22e50455, 0x22e50455, 0xcb154a68, 0x94d1962a, 0x207dc67b);
    Next(ABC_BLOCK, 7, 0x7ad956f2, 0x207dc67b, 0x8bac3051, 0xc73741ef,
         0xc72e01d5, 0x0, 0xfd469501, 0x420758c7, 0x420758c7, 0x3f4dedc8, 0x720fd37b, 0x928d99f6);
  }

  lemma Abc12()
    ensures Turns(INITIAL, ABC_BLOCK, 12) == Regs(0x854b3712, 0x5ed49596, 0x3020401c, 0x74e2f284)
  {
    hide Turns;
    Abc8();
    Next(ABC_BLOCK, 8, 0xc73741ef, 0x928d99f6, 0x207dc67b, 0x8bac3051,
         0x092da073, 0x0, 0x698098d8, 0xd064e262, 0xd064e262, 0x39e57b3a, 0xf2bd9d1c, 0x854b3712);
    Next(ABC_BLOCK, 9, 0x8bac3051, 0x854b3712, 0x928d99f6, 0x207dc67b,
         0xa03dd17b, 0x0, 0x8b44f7af, 0x2bea01cc, 0x2bea01cc, 0xb72ef97b, 0xef97bb72, 0x74e2f284);
    Next(ABC_BLOCK, 10, 0x207dc67b, 0x74e2f284, 0x854b3712, 0x928d99f6,
         0x864f3b72, 0x0, 0xffff5bb1, 0xa6cd01ed, 0xa6cd01ed, 0xa6cc5d9e, 0xbb3d4d98, 0x3020401c);
    Next(ABC_BLOCK, 11, 0x928d99f6, 0x3020401c, 0x74e2f284, 0x854b3712,
         0xb56b7706, 0x0, 0x895cd7be, 0x47f910fc, 0x47f910fc, 0xd155e8ba, 0x2eb4557a, 0x5ed49596);
  }

  lemma Abc16()
    ensures Turns(INITIAL, ABC_BLOCK, 16) == Regs(0xdda9b9a6, 0x72aff2e0, 0xe396856b, 0xa1051895)
  {
    hide Turns;
    Abc12();
    Next(ABC_BLOCK, 12, 0x854b3712, 0x5ed49596, 0x3020401c, 0x74e2f284,
         0x30226214, 0x0, 0x6b901122, 0xb56d9926, 0xb56d9926, 0x20fdaa48, 0x7ed52410, 0xdda9b9a6);
    Next(ABC_BLOCK, 13, 0x74e2f284, 0xdda9b9a6, 0x5ed49596, 0x3020401c,
         0x7c80d19e, 0x0, 0xfd987193, 0xf163c422, 0xf163c422, 0xeefc35b5, 0xc35b5eef, 0xa1051895);
    Next(ABC_BLOCK, 14, 0x3020401c, 0xa1051895, 0xdda9b9a6, 0x5ed49596,
         0xdfd19d86, 0x18, 0xa679438e, 0x0ff1dda2, 0x0ff1ddba, 0xb66b2148, 0x42916cd6, 0xe396856b);
    Next(ABC_BLOCK, 15, 0x5ed49596, 0xe396856b, 0xa1051895, 0xdda9b9a6,
         0xbd2d3885, 0x0, 0x49b40821, 0x1c01ce1b, 0x1c01ce1b, 0x65b5d63c, 0x8f196d75, 0x72aff2e0);
  }

  lemma Abc20()
    ensures Turns(INITIAL, ABC_BLOCK, 20) == Regs(0x3e9e9126, 0xb5b204e4, 0xe25e1652, 0x4a1d804e)
  {
    hide Turns;
    Abc16();
    Next(ABC_BLOCK, 16, 0xdda9b9a6, 0x72aff2e0, 0xe396856b, 0xa1051895,
         0x629795ea, 0x0, 0xf61e2562, 0x40414f90, 0x40414f90, 0x365f74f2, 0xcbee9e46, 0x3e9e9126);
    Next(ABC_BLOCK, 17, 0xa1051895, 0x3e9e9126, 0x72aff2e0, 0xe396856b,
         0x32bff3a2, 0x0, 0xc040b340, 0xd3c50c37, 0xd3c50c37, 0x9405bf77, 0x0b7eef28, 0x4a1d804e);
    Next(ABC_BLOCK, 18, 0xe396856b, 0x4a1d804e, 0x3e9e9126, 0x72aff2e0,
         0x4e1d8146, 0x0, 0x265e5a51, 0x31b406b1, 0x31b406b1, 0x58126102, 0x98409604, 0xe25e1652);
    Next(ABC_BLOCK, 19, 0x72aff2e0, 0xe25e1652, 0x4a1d804e, 0x3e9e9126,
         0x621f104a, 0x80636261, 0xe9b6c7aa, 0xd4cf032a, 0x5532658b, 0x3ee92d35, 0xd353ee92, 0xb5b204e4);
  }

  lemma Abc24()
    ensures Turns(INITIAL, ABC_BLOCK, 24) == Regs(0x59a8ffda, 0x47092c07, 0xabfc7920, 0x6d002f1e)
  {
    hide Turns;
    Abc20();
    Next(ABC_BLOCK, 20, 0x3e9e9126, 0xb5b204e4, 0xe25e1652, 0x4a1d804e,
         0xa0521654, 0x0, 0xd62f105d, 0xdef0a77a, 0xdef0a77a, 0xb51fb7d7, 0xa3f6faf6, 0x59a8ffda);
    Next(ABC_BLOCK, 21, 0x4a1d804e, 0x59a8ffda, 0xb5b204e4, 0xe25e1652,
         0x55a816f6, 0x0, 0x02441453, 0x9fc59744, 0x9fc59744, 0xa209ab97, 0x13572f44, 0x6d002f1e);
    Next(ABC_BLOCK, 22, 0xe25e1652, 0x6d002f1e, 0x59a8ffda, 0xb5b204e4,
         0x6d08ff1e, 0x0, 0xd8a1e681, 0x4f671570, 0x4f671570, 0x2808fbf1, 0x3efc4a02, 0xabfc7920);
    Next(ABC_BLOCK, 23, 0xb5b204e4, 0xabfc7920, 0x6d002f1e, 0x59a8ffda,
         0x2da87904, 0x0, 0xe7d3fbc8, 0xe35a7de8, 0xe35a7de8, 0xcb2e79b0, 0x9b0cb2e7, 0x47092c07);
  }

  lemma Abc28()
    ensures Turns(INITIAL, ABC_BLOCK, 28) == Regs(0xb7f268cf, 0x786acb8f, 0xfe1623b1, 0x09388eff)
  {
    hide Turns;
    Abc24();
    Next(ABC_BLOCK, 24, 0x59a8ffda, 0x47092c07, 0xabfc7920, 0x6d002f1e,
         0xc7fc7c26, 0x0, 0x21e1cde6, 0x21a57c00, 0x21a57c00, 0x438749e6, 0x70e93cc8, 0xb7f268cf);
    Next(ABC_BLOCK, 25, 0x6d002f1e, 0xb7f268cf, 0x47092c07, 0xabfc7920,
         0xe7f16c07, 0x18, 0xc33707d6, 0x54f19b25, 0x54f19b3d, 0x1828a313, 0x51462630, 0x09388eff);
    Next(ABC_BLOCK, 26, 0xabfc7920, 0x09388eff, 0xb7f268cf, 0x47092c07,
         0xb1fa4ccf, 0x0, 0xf4d50d87, 0x5df6c5ef, 0x5df6c5ef, 0x52cbd376, 0xf4dd94b2, 0xfe1623b1);
    Next(ABC_BLOCK, 27, 0x47092c07, 0xfe1623b1, 0x09388eff, 0xb7f268cf,
         0xbe1aa6b1, 0x0, 0x455a14ed, 0x0523d2b8, 0x0523d2b8, 0x4a7de7a5, 0x7a54a7de, 0x786acb8f);
  }

  lemma Abc32()
    ensures Turns(INITIAL, ABC_BLOCK, 32) == Regs(0x790a77fb, 0x726342d3, 0xa62884aa, 0x9f47e4f8)
  {
    hide Turns;
    Abc28();
    Next(ABC_BLOCK, 28, 0xb7f268cf, 0x786acb8f, 0xfe1623b1, 0x09388eff,
         0xfe2eab8f, 0x0, 0xa9e3e905, 0xb621145e, 0xb621145e, 0x6004fd63, 0x009fac6c, 0x790a77fb);
    Next(ABC_BLOCK, 29, 0x09388eff, 0x790a77fb, 0x786acb8f, 0xfe1623b1,
         0x786aebbf, 0x0, 0xfcefa3f8, 0x81a37abe, 0x81a37abe, 0x7e931eb6, 0x263d6cfd, 0x9f47e4f8);
    Next(ABC_BLOCK, 30, 0xfe1623b1, 0x9f47e4f8, 0x790a77fb, 0x786acb8f,
         0x1942f4f8, 0x0, 0x676f02d9, 0x175918a9, 0x175918a9, 0x7ec81b82, 0x06e09fb2, 0xa62884aa);
    Next(ABC_BLOCK, 31, 0x786acb8f, 0xa62884aa, 0x9f47e4f8, 0x790a77fb,
         0xa64d84aa, 0x0, 0x8d2a4c8a, 0x1eb85039, 0x1eb85039, 0xabe29cc3, 0xcc3abe29, 0x726342d3);
  }

  lemma Abc36()
    ensures Turns(INITIAL, ABC_BLOCK, 36) == Regs(0xb3707ebf, 0x3b0875c7, 0x8d212ff5, 0x60127b2e)
  {
    hide Turns;
    Abc32();
    Next(ABC_BLOCK, 32, 0x790a77fb, 0x726342d3, 0xa62884aa, 0x9f47e4f8,
         0x4b0c2281, 0x0, 0xfffa3942, 0xc4169a7c, 0xc4169a7c, 0xc410d3be, 0x410d3bec, 0xb3707ebf);
    Next(ABC_BLOCK, 33, 0x9f47e4f8, 0xb3707ebf, 0x726342d3, 0xa62884aa,
         0x673bb8c6, 0x0, 0x8771f681, 0x06839dbe, 0x06839dbe, 0x8df5943f, 0xaca1fc6f, 0x60127b2e);
    Next(ABC_BLOCK, 34, 0xa62884aa, 0x60127b2e, 0xb3707ebf, 0x726342d3,
         0xa1014742, 0x0, 0x6d9d6122, 0x4729cbec, 0x4729cbec, 0xb4c72d0e, 0x2d0eb4c7, 0x8d212ff5);
    Next(ABC_BLOCK, 35, 0x726342d3, 0x8d212ff5, 0x60127b2e, 0xb3707ebf,
         0x5e432a64, 0x18, 0xfde5380c, 0xd0a66d37, 0xd0a66d4f, 0xce8ba55b, 0xade745d2, 0x3b0875c7);
  }

  lemma Abc40()
    ensures Turns(INITIAL, ABC_BLOCK, 40) == Regs(0x21b117b9, 0x5a2f5ea5, 0x3575227e, 0x6e7429d5)
  {
    hide Turns;
    Abc36();
    Next(ABC_BLOCK, 36, 0xb3707ebf, 0x3b0875c7, 0x8d212ff5, 0x60127b2e,
         0xd63b211c, 0x0, 0xa4beea44, 0x89ab9fdb, 0x89ab9fdb, 0x2e6a8a1f, 0xe6a8a1f2, 0x21b117b9);
    Next(ABC_BLOCK, 37, 0x60127b2e, 0x21b117b9, 0x3b0875c7, 0x8d212ff5,
         0x97984d8b, 0x0, 0x4bdecfa9, 0xf7aac8b9, 0xf7aac8b9, 0x43899862, 0x4cc3121c, 0x6e7429d5);
    Next(ABC_BLOCK, 38, 0x8d212ff5, 0x6e7429d5, 0x21b117b9, 0x3b0875c7,
         0x74cd4bab, 0x0, 0xf6bb4b60, 0x01ee7ba0, 0x01ee7ba0, 0xf8a9c700, 0xc700f8a9, 0x3575227e);
    Next(ABC_BLOCK, 39, 0x3b0875c7, 0x3575227e, 0x6e7429d5, 0x21b117b9,
         0x7ab01c12, 0x0, 0xbebfbc70, 0xb5b891d9, 0xb5b891d9, 0x74784e49, 0x24ba3c27, 0x5a2f5ea5);
  }

  lemma Abc44()
    ensures Turns(INITIAL, ABC_BLOCK, 44) == Regs(0x11de1779, 0x4c6124f4, 0x31c465ca, 0xfadcaa38)
  {
    hide Turns;
    Abc40();
    Next(ABC_BLOCK, 40, 0x21b117b9, 0x5a2f5ea5, 0x3575227e, 0x6e7429d5,
         0x012e550e, 0x0, 0x289b7ec6, 0x22df6cc7, 0x22df6cc7, 0x4b7aeb8d, 0xb7aeb8d4, 0x11de1779);
    Next(ABC_BLOCK, 41, 0x6e7429d5, 0x11de1779, 0x5a2f5ea5, 0x3575227e,
         0x7e846ba2, 0x80636261, 0xeaa127fa, 0xecf89577, 0x6d5bf7d8, 0x57fd1fd2, 0xe8fe92bf, 0xfadcaa38);
    Next(ABC_BLOCK, 42, 0x3575227e, 0xfadcaa38, 0x11de1779, 0x5a2f5ea5,
         0xb12de3e4, 0x0, 0xd4ef3085, 0xe6a30662, 0xe6a30662, 0xbb9236e7, 0x36e7bb92, 0x31c465ca);
    Next(ABC_BLOCK, 43, 0x5a2f5ea5, 0x31c465ca, 0xfadcaa38, 0x11de1779,
         0xdac6d88b, 0x0, 0x04881d05, 0x34f63730, 0x34f63730, 0x397e5435, 0x1a9cbf2a, 0x4c6124f4);
  }

  lemma Abc48()
    ensures Turns(INITIAL, ABC_BLOCK, 48) == Regs(0x7f2e507b, 0x7beb9700, 0x8fae6399, 0x99d9679d)
  {
    hide Turns;
    Abc44();
    Next(ABC_BLOCK, 44, 0x11de1779, 0x4c6124f4, 0x31c465ca, 0xfadcaa38,
         0x8779eb06, 0x0, 0xd9d4d039, 0x9958027f, 0x9958027f, 0x732cd2b8, 0x32cd2b87, 0x7f2e507b);
    Next(ABC_BLOCK, 45, 0xfadcaa38, 0x7f2e507b, 0x4c6124f4, 0x31c465ca,
         0x028b1145, 0x0, 0xe6db99e5, 0xfd67bb7d, 0xfd67bb7d, 0xe4435562, 0x1aab1722, 0x99d9679d);
    Next(ABC_BLOCK, 46, 0x31c465ca, 0x99d9679d, 0x7f2e507b, 0x4c6124f4,
         0xaa961312, 0x0, 0x1fa27cf8, 0xdc5a78dc, 0xdc5a78dc, 0xfbfcf5d4, 0xf5d4fbfc, 0x8fae6399);
    Next(ABC_BLOCK, 47, 0x4c6124f4, 0x8fae6399, 0x99d9679d, 0x7f2e507b,
         0x6959547f, 0x0, 0xc4ac5665, 0xb5ba7973, 0xb5ba7973, 0x7a66cfd8, 0xec3d3367, 0x7beb9700);
  }

  lemma Abc52()
    ensures Turns(INITIAL, ABC_BLOCK, 52) == Regs(0x7b201df8, 0x8bf025c4, 0xb298cefd, 0xf4e8e96e)
  {
    hide Turns;
    Abc48();
    Next(ABC_BLOCK, 48, 0x7f2e507b, 0x7beb9700, 0x8fae6399, 0x99d9679d,
         0xf041fcfb, 0x80636261, 0xf4292244, 0x6f704d76, 0xefd3afd7, 0xe3fcd21b, 0xff3486f8, 0x7b201df8);
    Next(ABC_BLOCK, 49, 0x99d9679d, 0x7b201df8, 0x7beb9700, 0x8fae6399,
         0x009a0afe, 0x0, 0x432aff97, 0x9a73729b, 0x9a73729b, 0xdd9e7232, 0x79c8cb76, 0xf4e8e96e);
    Next(ABC_BLOCK, 50, 0x8fae6399, 0xf4e8e96e, 0x7b201df8, 0x7beb9700,
         0x8fdcf407, 0x18, 0xab9423a7, 0x1f8b57a0, 0x1f8b57b8, 0xcb1f7b5f, 0xbdafe58f, 0xb298cefd);
    Next(ABC_BLOCK, 51, 0x7beb9700, 0xb298cefd, 0xf4e8e96e, 0x7b201df8,
         0x42370791, 0x0, 0xfc93a039, 0xbe229e91, 0xbe229e91, 0xbab63eca, 0xd95756c7, 0x8bf025c4);
  }

  lemma Abc56()
    ensures Turns(INITIAL, ABC_BLOCK, 56) == Regs(0x06cc5e8a, 0x3bfa2c27, 0x7d632dd0, 0x5b0d97aa)
  {
    hide Turns;
    Abc52();
    Next(ABC_BLOCK, 52, 0x7b201df8, 0x8bf025c4, 0xb298cefd, 0xf4e8e96e,
         0x396ff928, 0x0, 0x655b59c3, 0xb4901720, 0xb4901720, 0x19eb70e3, 0x7adc38c6, 0x06cc5e8a);
    Next(ABC_BLOCK, 53, 0xf4e8e96e, 0x06cc5e8a, 0x8bf025c4, 0xb298cefd,
         0xc41f5a4e, 0x0, 0x8f0ccc92, 0xb90843bc, 0xb90843bc, 0x4815104e, 0x54413920, 0x5b0d97aa);
    Next(ABC_BLOCK, 54, 0xb298cefd, 0x5b0d97aa, 0x06cc5e8a, 0x8bf025c4,
         0x79c38131, 0x0, 0xffeff47d, 0x2c5c502e, 0x2c5c502e, 0x2c4c44ab, 0x22559626, 0x7d632dd0);
    Next(ABC_BLOCK, 55, 0x8bf025c4, 0x7d632dd0, 0x5b0d97aa, 0x06cc5e8a,
         0xa67e3a5f, 0x0, 0x85845dd1, 0x326e6023, 0x326e6023, 0xb7f2bdf4, 0xbe96fe57, 0x3bfa2c27);
  }

  lemma Abc60()
    ensures Turns(INITIAL, ABC_BLOCK, 60) == Regs(0x7f81cc35, 0x7327d604, 0x4f9dbe3f, 0x094454ab)
  {
    hide Turns;
    Abc56();
    Next(ABC_BLOCK, 56, 0x06cc5e8a, 0x3bfa2c27, 0x7d632dd0, 0x5b0d97aa,
         0xc29941a7, 0x0, 0x6fa87e4f, 0xc965a031, 0xc965a031, 0x390e1e80, 0x4387a00e, 0x7f81cc35);
    Next(ABC_BLOCK, 57, 0x5b0d97aa, 0x7f81cc35, 0x3bfa2c27, 0x7d632dd0,
         0xc467f218, 0x0, 0xfe2ce6e0, 0x1f7589c2, 0x1f7589c2, 0x1da270a2, 0x89c28876, 0x094454ab);
    Next(ABC_BLOCK, 58, 0x7d632dd0, 0x094454ab, 0x7f81cc35, 0x3bfa2c27,
         0xb2c41bce, 0x0, 0xa3014314, 0x3027499e, 0x3027499e, 0xd3288cb2, 0x46596994, 0x4f9dbe3f);
    Next(ABC_BLOCK, 59, 0x3bfa2c27, 0x4f9dbe3f, 0x094454ab, 0x7f81cc35,
         0xc6bbeb54, 0x0, 0x4e0811a1, 0x02b6177b, 0x02b6177b, 0x50be291c, 0x238a17c5, 0x7327d604);
  }

  lemma Abc64()
    ensures Turns(INITIAL, ABC_BLOCK, 64) == Regs(0x310ade8f, 0xc08226b3, 0xe484b9d8, 0x624d8cb2)
  {
    hide Turns;
    Abc60();
    Next(ABC_BLOCK, 60, 0x7f81cc35, 0x7327d604, 0x4f9dbe3f, 0x094454ab,
         0xb822416b, 0x0, 0xf7537e82, 0x37a40da0, 0x37a40da0, 0x2ef78c22, 0xbde3088b, 0x310ade8f);
    Next(ABC_BLOCK, 61, 0x094454ab, 0x310ade8f, 0x7327d604, 0x4f9dbe3f,
         0xc24d09cb, 0x0, 0xbd3af235, 0xcb915e76, 0xcb915e76, 0x88cc50ab, 0x3142ae23, 0x624d8cb2);
    Next(ABC_BLOCK, 62, 0x4f9dbe3f, 0x624d8cb2, 0x310ade8f, 0x7327d604,
         0xdfd77374, 0x0, 0x2ad7d2bb, 0x2f7531b3, 0x2f7531b3, 0x5a4d046e, 0x82372d26, 0xe484b9d8);
    Next(ABC_BLOCK, 63, 0x7327d604, 0xe484b9d8, 0x624d8cb2, 0x310ade8f,
         0x8cb8354a, 0x0, 0xeb86d391, 0xffe00b4e, 0xffe00b4e, 0xeb66dedf, 0xdbfd6cdb, 0xc08226b3);
  }

  lemma BlockOfTurns(x: Block, r: Regs)
    requires Turns(INITIAL, x, 64) == r
    ensures RfcBlock(INITIAL, x) == Plus(INITIAL, r)
  {
    hide Turns, Plus, RfcBlock;
    TurnsMakeBlock(INITIAL, x);
  }

  lemma EmptyBlock()
    ensures RfcBlock(INITIAL, EMPTY_BLOCK) == Regs(0xd98c1dd4, 0x04b2008f, 0x980980e9, 0x7e42f8ec)
  {
    hide Turns, RfcBlock;
    Empty64();
    BlockOfTurns(EMPTY_BLOCK, Regs(0x7246fad3, 0x14e45506, 0xff4ea3eb, 0x6e10a476));
  }

  lemma AbcBlock()
    ensures RfcBlock(INITIAL, ABC_BLOCK) == Regs(0x98500190, 0xb04fd23c, 0x7d3f96d6, 0x727fe128)
  {
    hide Turns, RfcBlock;
    Abc64();
    BlockOfTurns(ABC_BLOCK, Regs(0x310ade8f, 0xc08226b3, 0xe484b9d8, 0x624d8cb2));
  }

  // From texts to blocks and from registers to digits.

  lemma SmallWords()
    ensures WordOf(0, 0, 0, 0) == 0 && WordOf(0x80, 0, 0, 0) == 0x80 && WordOf(24, 0, 0, 0) == 24
    ensures WordOf(0x61, 0x62, 0x63, 0x80) == 0x80636261
  {
  }

  lemma EmptyWords16()
    ensures CodeWords([]) == EMPTY_BLOCK
  {
    hide WordOf;
    SmallWords();
    var t: Bytes := [] + [0x80];
    assert t == [0x80];
    assert LowWord(0) == 0;
    forall j | 0 <= j < 16
      ensures CodeWords([])[j] == EMPTY_BLOCK[j]
    {
      BlankWord(t, j);
      assert EMPTY_BLOCK[j] == if j == 0 then 0x80 else 0;
    }
  }

  lemma BlankWord(t: Bytes, j: nat)
    ensures 4 * j >= |t| ==> WordAt(t, j) == 0
  {
    hide WordOf;
    SmallWords();
  }

  const ABC: Bytes := [97, 98, 99]

  lemma AbcWords16()
    ensures CodeWords(ABC) == ABC_BLOCK
  {
    hide WordOf;
    SmallWords();
    var t := ABC + [0x80];
    assert t == [97, 98, 99, 0x80] && |ABC| == 3;
    assert Digit256(24, 0) == 24 && Digit256(24, 1) == Digit256(24, 2) == Digit256(24, 3) == 0;
    assert LowWord(24) == 24;
    forall j | 0 <= j < 16
      ensures CodeWords(ABC)[j] == ABC_BLOCK[j]
    {
      BlankWord(t, j);
      assert ABC_BLOCK[j] == if j == 0 then 0x80636261 else if j == 14 then 24 else 0;
    }
  }

  lemma OneBlock(m: Bytes, x: Block)
    requires CodeWords(m) == x
    ensures Digest(m) == Print(RfcBlock(INITIAL, x))
  {
    hide RfcBlock, Print, CodeWords;
    assert Blocks(|m|) == 1;
    NextBlock(CodeWords(m), 0, x);
  }

  lemma FourBytes(w: word, a: byte, b: byte, c: byte, d: byte)
    requires ByteAt(w, 0) == a && ByteAt(w, 1) == b && ByteAt(w, 2) == c && ByteAt(w, 3) == d
    ensures Digits(w) == [HexDigit(a / 16), HexDigit(a % 16), HexDigit(b / 16), HexDigit(b % 16),
                          HexDigit(c / 16), HexDigit(c % 16), HexDigit(d / 16), HexDigit(d % 16)]
  {
    hide ByteAt, HexDigit;
  }

  lemma EmptyDigits0()
    ensures Digits(0xd98c1dd4) == Ascii("D41D8CD9")
  {
    FourBytes(0xd98c1dd4, 0xd4, 0x1d, 0x8c, 0xd9);
  }

  lemma EmptyDigits1()
    ensures Digits(0x04b2008f) == Ascii("8F00B204")
  {
    FourBytes(0x04b2008f, 0x8f, 0x00, 0xb2, 0x04);
  }

  lemma EmptyDigits2()
    ensures Digits(0x980980e9) == Ascii("E9800998")
  {
    FourBytes(0x980980e9, 0xe9, 0x80, 0x09, 0x98);
  }

  lemma EmptyDigits3()
    ensures Digits(0x7e42f8ec) == Ascii("ECF8427E")
  {
    FourBytes(0x7e42f8ec, 0xec, 0xf8, 0x42, 0x7e);
  }

  lemma EmptyDigits()
    ensures Print(Regs(0xd98c1dd4, 0x04b2008f, 0x980980e9, 0x7e42f8ec))
         == Ascii("D41D8CD9") + Ascii("8F00B204") + Ascii("E9800998") + Ascii("ECF8427E")
  {
    hide Digits;
    EmptyDigits0();
    EmptyDigits1();
    EmptyDigits2();
    EmptyDigits3();
  }

  lemma AbcDigits0()
    ensures Digits(0x98500190) == Ascii("90015098")
  {
    FourBytes(0x98500190, 0x90, 0x01, 0x50, 0x98);
  }

  lemma AbcDigits1()
    ensures Digits(0xb04fd23c) == Ascii("3CD24FB0")
  {
    FourBytes(0xb04fd23c, 0x3c, 0xd2, 0x4f, 0xb0);
  }

  lemma AbcDigits2()
    ensures Digits(0x7d3f96d6) == Ascii("D6963F7D")
  {
    FourBytes(0x7d3f96d6, 0xd6, 0x96, 0x3f, 0x7d);
  }

  lemma AbcDigits3()
    ensures Digits(0x727fe128) == Ascii("28E17F72")
  {
    FourBytes(0x727fe128, 0x28, 0xe1, 0x7f, 0x72);
  }

  lemma AbcDigits()
    ensures Print(Regs(0x98500190, 0xb04fd23c, 0x7d3f96d6, 0x727fe128))
         == Ascii("90015098") + Ascii("3CD24FB0") + Ascii("D6963F7D") + Ascii("28E17F72")
  {
    hide Digits;
    AbcDigits0();
    AbcDigits1();
    AbcDigits2();
    AbcDigits3();
  }


  /** The first text of the test suite. */
  lemma DigestOfEmpty()
    ensures Digest([]) == Ascii("D41D8CD9") + Ascii("8F00B204") + Ascii("E9800998") + Ascii("ECF8427E")
  {
    hide CodeWords, RfcBlock, Digits;
    EmptyWords16();
    OneBlock([], EMPTY_BLOCK);
    EmptyBlock();
    EmptyDigits();
  }

  /** The third: "abc". */
  lemma DigestOfAbc()
    ensures Digest(ABC) == Ascii("90015098") + Ascii("3CD24FB0") + Ascii("D6963F7D") + Ascii("28E17F72")
  {
    hide CodeWords, RfcBlock, Digits;
    AbcWords16();
    OneBlock(ABC, ABC_BLOCK);
    AbcBlock();
    AbcDigits();
  }
}
