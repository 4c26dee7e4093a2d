/** The one-block example of FIPS 180-4: the hash of "abc", which depends on every constant,
    function and step of the definition. */
module Sha256Example {
  import opened Bytes
  import opened Sha256

  const ABC: seq<Byte> := [0x61, 0x62, 0x63]

  /** The only block of the padded message. */
  function AbcBlock(): (block: Block) {
    ABC + [0x80] + Zeros(52) + [0, 0, 0, 0, 0, 0, 0, 24]
  }

  lemma AbcIsPadded()
    ensures Padded(ABC) == AbcBlock()
  {
    assert BigEndian(24, 8) == [0, 0, 0, 0, 0, 0, 0, 24] by {
      assert BigEndian(0, 1) == BigEndian(0, 0) + [0] && BigEndian(0, 2) == BigEndian(0, 1) + [0];
      assert BigEndian(0, 3) == BigEndian(0, 2) + [0] && BigEndian(0, 4) == BigEndian(0, 3) + [0];
      assert BigEndian(0, 5) == BigEndian(0, 4) + [0] && BigEndian(0, 6) == BigEndian(0, 5) + [0];
      assert BigEndian(0, 7) == BigEndian(0, 6) + [0] && BigEndian(24, 8) == BigEndian(0, 7) + [24];
    }
  }

  lemma SmallWords()
    ensures Word(0) == 0 && Word(0x61) == 0x61 && Word(0x62) == 0x62 && Word(0x63) == 0x63 && Word(0x80) == 0x80 && Word(24) == 24
  {
  }

  /** The first sixteen words are those of the block. */
  lemma FirstWords()
    ensures W(AbcBlock(), 0) == 0x61626380 && W(AbcBlock(), 15) == 0x18
    ensures forall t :: 1 <= t < 15 ==> W(AbcBlock(), t) == 0
  {
    hide Word, Combine;
    SmallWords();
    Combined();
  }

  lemma Combined()
    ensures Combine(0x61, 0x62, 0x63, 0x80) == 0x61626380 && Combine(0, 0, 0, 24) == 0x18 && Combine(0, 0, 0, 0) == 0
  {
  }

  lemma WordsFrom16()
    ensures W(AbcBlock(), 16) == 0x61626380
    ensures W(AbcBlock(), 17) == 0x000f0000
    ensures W(AbcBlock(), 18) == 0x7da86405
    ensures W(AbcBlock(), 19) == 0x600003c6
    ensures W(AbcBlock(), 20) == 0x3e9d7b78
    ensures W(AbcBlock(), 21) == 0x0183fc00
    ensures W(AbcBlock(), 22) == 0x12dcbfdb
    ensures W(AbcBlock(), 23) == 0xe2e2c38e
  {
    hide W;
    FirstWords();
    Scheduled(16, 0x00000000, 0x00000000, 0x00000000, 0x61626380);
    Scheduled(17, 0x00000018, 0x00000000, 0x00000000, 0x00000000);
    Scheduled(18, 0x61626380, 0x00000000, 0x00000000, 0x00000000);
    Scheduled(19, 0x000f0000, 0x00000000, 0x00000000, 0x00000000);
    Scheduled(20, 0x7da86405, 0x00000000, 0x00000000, 0x00000000);
    Scheduled(21, 0x600003c6, 0x00000000, 0x00000000, 0x00000000);
    Scheduled(22, 0x3e9d7b78, 0x00000018, 0x00000000, 0x00000000);
    Scheduled(23, 0x0183fc00, 0x61626380, 0x00000000, 0x00000000);
  }

  lemma WordsFrom24()
    ensures W(AbcBlock(), 24) == 0xc8215c1a
    ensures W(AbcBlock(), 25) == 0xb73679a2
    ensures W(AbcBlock(), 26) == 0xe5bc3909
    ensures W(AbcBlock(), 27) == 0x32663c5b
    ensures W(AbcBlock(), 28) == 0x9d209d67
    ensures W(AbcBlock(), 29) == 0xec8726cb
    ensures W(AbcBlock(), 30) == 0x702138a4
    ensures W(AbcBlock(), 31) == 0xd3b7973b
  {
    hide W;
    FirstWords();
    WordsFrom16();
    Scheduled(24, 0x12dcbfdb, 0x000f0000, 0x00000000, 0x00000000);
    Scheduled(25, 0xe2e2c38e, 0x7da86405, 0x00000000, 0x00000000);
    Scheduled(26, 0xc8215c1a, 0x600003c6, 0x00000000, 0x00000000);
    Scheduled(27, 0xb73679a2, 0x3e9d7b78, 0x00000000, 0x00000000);
    Scheduled(28, 0xe5bc3909, 0x0183fc00, 0x00000000, 0x00000000);
    Scheduled(29, 0x32663c5b, 0x12dcbfdb, 0x00000000, 0x00000000);
    Scheduled(30, 0x9d209d67, 0xe2e2c38e, 0x00000018, 0x00000000);
    Scheduled(31, 0xec8726cb, 0xc8215c1a, 0x61626380, 0x00000018);
  }

  lemma WordsFrom32()
    ensures W(AbcBlock(), 32) == 0x93f5997f
    ensures W(AbcBlock(), 33) == 0x3b68ba73
    ensures W(AbcBlock(), 34) == 0xaff4ffc1
    ensures W(AbcBlock(), 35) == 0xf10a5c62
    ensures W(AbcBlock(), 36) == 0x0a8b3996
    ensures W(AbcBlock(), 37) == 0x72af830a
    ensures W(AbcBlock(), 38) == 0x9409e33e
    ensures W(AbcBlock(), 39) == 0x24641522
  {
    hide W;
    FirstWords();
    WordsFrom16();
    WordsFrom24();
    Scheduled(32, 0x702138a4, 0xb73679a2, 0x000f0000, 0x61626380);
    Scheduled(33, 0xd3b7973b, 0xe5bc3909, 0x7da86405, 0x000f0000);
    Scheduled(34, 0x93f5997f, 0x32663c5b, 0x600003c6, 0x7da86405);
    Scheduled(35, 0x3b68ba73, 0x9d209d67, 0x3e9d7b78, 0x600003c6);
    Scheduled(36, 0xaff4ffc1, 0xec8726cb, 0x0183fc00, 0x3e9d7b78);
    Scheduled(37, 0xf10a5c62, 0x702138a4, 0x12dcbfdb, 0x0183fc00);
    Scheduled(38, 0x0a8b3996, 0xd3b7973b, 0xe2e2c38e, 0x12dcbfdb);
    Scheduled(39, 0x72af830a, 0x93f5997f, 0xc8215c1a, 0xe2e2c38e);
  }

  lemma WordsFrom40()
    ensures W(AbcBlock(), 40) == 0x9f47bf94
    ensures W(AbcBlock(), 41) == 0xf0a64f5a
    ensures W(AbcBlock(), 42) == 0x3e246a79
    ensures W(AbcBlock(), 43) == 0x27333ba3
    ensures W(AbcBlock(), 44) == 0x0c4763f2
    ensures W(AbcBlock(), 45) == 0x840abf27
    ensures W(AbcBlock(), 46) == 0x7a290d5d
    ensures W(AbcBlock(), 47) == 0x065c43da
  {
    hide W;
    FirstWords();
    WordsFrom24();
    WordsFrom32();
    Scheduled(40, 0x9409e33e, 0x3b68ba73, 0xb73679a2, 0xc8215c1a);
    Scheduled(41, 0x24641522, 0xaff4ffc1, 0xe5bc3909, 0xb73679a2);
    Scheduled(42, 0x9f47bf94, 0xf10a5c62, 0x32663c5b, 0xe5bc3909);
    Scheduled(43, 0xf0a64f5a, 0x0a8b3996, 0x9d209d67, 0x32663c5b);
    Scheduled(44, 0x3e246a79, 0x72af830a, 0xec8726cb, 0x9d209d67);
    Scheduled(45, 0x27333ba3, 0x9409e33e, 0x702138a4, 0xec8726cb);
    Scheduled(46, 0x0c4763f2, 0x24641522, 0xd3b7973b, 0x702138a4);
    Scheduled(47, 0x840abf27, 0x9f47bf94, 0x93f5997f, 0xd3b7973b);
  }

  lemma WordsFrom48()
    ensures W(AbcBlock(), 48) == 0xfb3e89cb
    ensures W(AbcBlock(), 49) == 0xcc7617db
    ensures W(AbcBlock(), 50) == 0xb9e66c34
    ensures W(AbcBlock(), 51) == 0xa9993667
    ensures W(AbcBlock(), 52) == 0x84badedd
    ensures W(AbcBlock(), 53) == 0xc21462bc
    ensures W(AbcBlock(), 54) == 0x1487472c
    ensures W(AbcBlock(), 55) == 0xb20f7a99
  {
    hide W;
    FirstWords();
    WordsFrom32();
    WordsFrom40();
    Scheduled(48, 0x7a290d5d, 0xf0a64f5a, 0x3b68ba73, 0x93f5997f);
    Scheduled(49, 0x065c43da, 0x3e246a79, 0xaff4ffc1, 0x3b68ba73);
    Scheduled(50, 0xfb3e89cb, 0x27333ba3, 0xf10a5c62, 0xaff4ffc1);
    Scheduled(51, 0xcc7617db, 0x0c4763f2, 0x0a8b3996, 0xf10a5c62);
    Scheduled(52, 0xb9e66c34, 0x840abf27, 0x72af830a, 0x0a8b3996);
    Scheduled(53, 0xa9993667, 0x7a290d5d, 0x9409e33e, 0x72af830a);
    Scheduled(54, 0x84badedd, 0x065c43da, 0x24641522, 0x9409e33e);
    Scheduled(55, 0xc21462bc, 0xfb3e89cb, 0x9f47bf94, 0x24641522);
  }

  lemma WordsFrom56()
    ensures W(AbcBlock(), 56) == 0xef57b9cd
    ensures W(AbcBlock(), 57) == 0xebe6b238
    ensures W(AbcBlock(), 58) == 0x9fe3095e
    ensures W(AbcBlock(), 59) == 0x78bc8d4b
    ensures W(AbcBlock(), 60) == 0xa43fcf15
    ensures W(AbcBlock(), 61) == 0x668b2ff8
    ensures W(AbcBlock(), 62) == 0xeeaba2cc
    ensures W(AbcBlock(), 63) == 0x12b1edeb
  {
    hide W;
    FirstWords();
    WordsFrom40();
    WordsFrom48();
    Scheduled(56, 0x1487472c, 0xcc7617db, 0xf0a64f5a, 0x9f47bf94);
    Scheduled(57, 0xb20f7a99, 0xb9e66c34, 0x3e246a79, 0xf0a64f5a);
    Scheduled(58, 0xef57b9cd, 0xa9993667, 0x27333ba3, 0x3e246a79);
    Scheduled(59, 0xebe6b238, 0x84badedd, 0x0c4763f2, 0x27333ba3);
    Scheduled(60, 0x9fe3095e, 0xc21462bc, 0x840abf27, 0x0c4763f2);
    Scheduled(61, 0x78bc8d4b, 0x1487472c, 0x7a290d5d, 0x840abf27);
    Scheduled(62, 0xa43fcf15, 0xb20f7a99, 0x065c43da, 0x7a290d5d);
    Scheduled(63, 0x668b2ff8, 0xef57b9cd, 0xfb3e89cb, 0x065c43da);
  }

  lemma Scheduled(t: nat, a: bv32, b: bv32, c: bv32, d: bv32)
    requires t >= 16 && W(AbcBlock(), t - 2) == a && W(AbcBlock(), t - 7) == b && W(AbcBlock(), t - 15) == c && W(AbcBlock(), t - 16) == d
    ensures W(AbcBlock(), t) == Sum(SmallSigma1(a), b, SmallSigma0(c), d)
  {
    hide Sum, SmallSigma0, SmallSigma1;
  }

  lemma NextRound(t: nat, before: Words, k: bv32, w: bv32)
    requires t < 64 && Rounds(INITIAL, AbcBlock(), t) == before && K[t] == k && W(AbcBlock(), t) == w
    ensures Rounds(INITIAL, AbcBlock(), t + 1) == Round(before, k, w)
  {
    hide Round, W;
  }

  lemma RoundsFrom0()
    ensures Rounds(INITIAL, AbcBlock(), 8) == Words(0x85a07b5f, 0xe5030380, 0x2b4209f5, 0x04409a6a, 0x0c657a79, 0x9b27a401, 0x714260ad, 0x43ada245)
  {
    hide W, Rounds;
    FirstRound();
    FirstWords();
    ConstantsOfRow0();
    NextRound(0, Words(0x6a09e667, 0xbb67ae85, 0x3c6ef372, 0xa54ff53a, 0x510e527f, 0x9b05688c, 0x1f83d9ab, 0x5be0cd19), 0x428a2f98, 0x61626380);
    NextRound(1, Words(0x5d6aebcd, 0x6a09e667, 0xbb67ae85, 0x3c6ef372, 0xfa2a4622, 0x510e527f, 0x9b05688c, 0x1f83d9ab), 0x71374491, 0x00000000);
    NextRound(2, Words(0x5a6ad9ad, 0x5d6aebcd, 0x6a09e667, 0xbb67ae85, 0x78ce7989, 0xfa2a4622, 0x510e527f, 0x9b05688c), 0xb5c0fbcf, 0x00000000);
    NextRound(3, Words(0xc8c347a7, 0x5a6ad9ad, 0x5d6aebcd, 0x6a09e667, 0xf92939eb, 0x78ce7989, 0xfa2a4622, 0x510e527f), 0xe9b5dba5, 0x00000000);
    NextRound(4, Words(0xd550f666, 0xc8c347a7, 0x5a6ad9ad, 0x5d6aebcd, 0x24e00850, 0xf92939eb, 0x78ce7989, 0xfa2a4622), 0x3956c25b, 0x00000000);
    NextRound(5, Words(0x04409a6a, 0xd550f666, 0xc8c347a7, 0x5a6ad9ad, 0x43ada245, 0x24e00850, 0xf92939eb, 0x78ce7989), 0x59f111f1, 0x00000000);
    NextRound(6, Words(0x2b4209f5, 0x04409a6a, 0xd550f666, 0xc8c347a7, 0x714260ad, 0x43ada245, 0x24e00850, 0xf92939eb), 0x923f82a4, 0x00000000);
    NextRound(7, Words(0xe5030380, 0x2b4209f5, 0x04409a6a, 0xd550f666, 0x9b27a401, 0x714260ad, 0x43ada245, 0x24e00850), 0xab1c5ed5, 0x00000000);
  }

  lemma RoundsFrom8()
    ensures Rounds(INITIAL, AbcBlock(), 16) == Words(0xb0fa238e, 0xc0645fde, 0xd932eb16, 0x87912990, 0x07590dcd, 0x0b92f20c, 0x745a48de, 0x1e578218)
  {
    hide W, Rounds;
    RoundsFrom0();
    FirstWords();
    ConstantsOfRow1();
    NextRound(8, Words(0x85a07b5f, 0xe5030380, 0x2b4209f5, 0x04409a6a, 0x0c657a79, 0x9b27a401, 0x714260ad, 0x43ada245), 0xd807aa98, 0x00000000);
    NextRound(9, Words(0x8e04ecb9, 0x85a07b5f, 0xe5030380, 0x2b4209f5, 0x32ca2d8c, 0x0c657a79, 0x9b27a401, 0x714260ad), 0x12835b01, 0x00000000);
    NextRound(10, Words(0x8c87346b, 0x8e04ecb9, 0x85a07b5f, 0xe5030380, 0x1cc92596, 0x32ca2d8c, 0x0c657a79, 0x9b27a401), 0x243185be, 0x00000000);
    NextRound(11, Words(0x4798a3f4, 0x8c87346b, 0x8e04ecb9, 0x85a07b5f, 0x436b23e8, 0x1cc92596, 0x32ca2d8c, 0x0c657a79), 0x550c7dc3, 0x00000000);
    NextRound(12, Words(0xf71fc5a9, 0x4798a3f4, 0x8c87346b, 0x8e04ecb9, 0x816fd6e9, 0x436b23e8, 0x1cc92596, 0x32ca2d8c), 0x72be5d74, 0x00000000);
    NextRound(13, Words(0x87912990, 0xf71fc5a9, 0x4798a3f4, 0x8c87346b, 0x1e578218, 0x816fd6e9, 0x436b23e8, 0x1cc92596), 0x80deb1fe, 0x00000000);
    NextRound(14, Words(0xd932eb16, 0x87912990, 0xf71fc5a9, 0x4798a3f4, 0x745a48de, 0x1e578218, 0x816fd6e9, 0x436b23e8), 0x9bdc06a7, 0x00000000);
    NextRound(15, Words(0xc0645fde, 0xd932eb16, 0x87912990, 0xf71fc5a9, 0x0b92f20c, 0x745a48de, 0x1e578218, 0x816fd6e9), 0xc19bf174, 0x00000018);
  }

  lemma RoundsFrom16()
    ensures Rounds(INITIAL, AbcBlock(), 24) == Words(0xc5d53d8d, 0xa7a3623f, 0xc2606d6d, 0x9dc68b63, 0xaa47c347, 0x49f5114a, 0xe1257970, 0x8ada8930)
  {
    hide W, Rounds;
    RoundsFrom8();
    WordsFrom16();
    ConstantsOfRow2();
    NextRound(16, Words(0xb0fa238e, 0xc0645fde, 0xd932eb16, 0x87912990, 0x07590dcd, 0x0b92f20c, 0x745a48de, 0x1e578218), 0xe49b69c1, 0x61626380);
    NextRound(17, Words(0x21da9a9b, 0xb0fa238e, 0xc0645fde, 0xd932eb16, 0x8034229c, 0x07590dcd, 0x0b92f20c, 0x745a48de), 0xefbe4786, 0x000f0000);
    NextRound(18, Words(0xc2fbd9d1, 0x21da9a9b, 0xb0fa238e, 0xc0645fde, 0x846ee454, 0x8034229c, 0x07590dcd, 0x0b92f20c), 0x0fc19dc6, 0x7da86405);
    NextRound(19, Words(0xfe777bbf, 0xc2fbd9d1, 0x21da9a9b, 0xb0fa238e, 0xcc899961, 0x846ee454, 0x8034229c, 0x07590dcd), 0x240ca1cc, 0x600003c6);
    NextRound(20, Words(0xe1f20c33, 0xfe777bbf, 0xc2fbd9d1, 0x21da9a9b, 0xb0638179, 0xcc899961, 0x846ee454, 0x8034229c), 0x2de92c6f, 0x3e9d7b78);
    NextRound(21, Words(0x9dc68b63, 0xe1f20c33, 0xfe777bbf, 0xc2fbd9d1, 0x8ada8930, 0xb0638179, 0xcc899961, 0x846ee454), 0x4a7484aa, 0x0183fc00);
    NextRound(22, Words(0xc2606d6d, 0x9dc68b63, 0xe1f20c33, 0xfe777bbf, 0xe1257970, 0x8ada8930, 0xb0638179, 0xcc899961), 0x5cb0a9dc, 0x12dcbfdb);
    NextRound(23, Words(0xa7a3623f, 0xc2606d6d, 0x9dc68b63, 0xe1f20c33, 0x49f5114a, 0xe1257970, 0x8ada8930, 0xb0638179), 0x76f988da, 0xe2e2c38e);
  }

  lemma RoundsFrom24()
    ensures Rounds(INITIAL, AbcBlock(), 32) == Words(0x73b33bf5, 0xea992a22, 0xa0060b30, 0x363482c9, 0xba591112, 0x0109ab3a, 0xade79437, 0x6112a3b7)
  {
    hide W, Rounds;
    RoundsFrom16();
    WordsFrom24();
    ConstantsOfRow3();
    NextRound(24, Words(0xc5d53d8d, 0xa7a3623f, 0xc2606d6d, 0x9dc68b63, 0xaa47c347, 0x49f5114a, 0xe1257970, 0x8ada8930), 0x983e5152, 0xc8215c1a);
    NextRound(25, Words(0x1c2c2838, 0xc5d53d8d, 0xa7a3623f, 0xc2606d6d, 0x2823ef91, 0xaa47c347, 0x49f5114a, 0xe1257970), 0xa831c66d, 0xb73679a2);
    NextRound(26, Words(0xcde8037d, 0x1c2c2838, 0xc5d53d8d, 0xa7a3623f, 0x14383d8e, 0x2823ef91, 0xaa47c347, 0x49f5114a), 0xb00327c8, 0xe5bc3909);
    NextRound(27, Words(0xb62ec4bc, 0xcde8037d, 0x1c2c2838, 0xc5d53d8d, 0xc74c6516, 0x14383d8e, 0x2823ef91, 0xaa47c347), 0xbf597fc7, 0x32663c5b);
    NextRound(28, Words(0x77d37528, 0xb62ec4bc, 0xcde8037d, 0x1c2c2838, 0xedffbff8, 0xc74c6516, 0x14383d8e, 0x2823ef91), 0xc6e00bf3, 0x9d209d67);
    NextRound(29, Words(0x363482c9, 0x77d37528, 0xb62ec4bc, 0xcde8037d, 0x6112a3b7, 0xedffbff8, 0xc74c6516, 0x14383d8e), 0xd5a79147, 0xec8726cb);
    NextRound(30, Words(0xa0060b30, 0x363482c9, 0x77d37528, 0xb62ec4bc, 0xade79437, 0x6112a3b7, 0xedffbff8, 0xc74c6516), 0x06ca6351, 0x702138a4);
    NextRound(31, Words(0xea992a22, 0xa0060b30, 0x363482c9, 0x77d37528, 0x0109ab3a, 0xade79437, 0x6112a3b7, 0xedffbff8), 0x14292967, 0xd3b7973b);
  }

  lemma RoundsFrom32()
    ensures Rounds(INITIAL, AbcBlock(), 40) == Words(0x79ea687a, 0x6dc57a8a, 0x34df1604, 0x41a65cb1, 0x1efbc0a0, 0xf0781bc8, 0xa507a53d, 0x0772a26b)
  {
    hide W, Rounds;
    RoundsFrom24();
    WordsFrom32();
    ConstantsOfRow4();
    NextRound(32, Words(0x73b33bf5, 0xea992a22, 0xa0060b30, 0x363482c9, 0xba591112, 0x0109ab3a, 0xade79437, 0x6112a3b7), 0x27b70a85, 0x93f5997f);
    NextRound(33, Words(0x98e12507, 0x73b33bf5, 0xea992a22, 0xa0060b30, 0x9cd9f5f6, 0xba591112, 0x0109ab3a, 0xade79437), 0x2e1b2138, 0x3b68ba73);
    NextRound(34, Words(0xfe604df5, 0x98e12507, 0x73b33bf5, 0xea992a22, 0x59249dd3, 0x9cd9f5f6, 0xba591112, 0x0109ab3a), 0x4d2c6dfc, 0xaff4ffc1);
    NextRound(35, Words(0xa9a7738c, 0xfe604df5, 0x98e12507, 0x73b33bf5, 0x085f3833, 0x59249dd3, 0x9cd9f5f6, 0xba591112), 0x53380d13, 0xf10a5c62);
    NextRound(36, Words(0x65a0cfe4, 0xa9a7738c, 0xfe604df5, 0x98e12507, 0xf4b002d6, 0x085f3833, 0x59249dd3, 0x9cd9f5f6), 0x650a7354, 0x0a8b3996);
    NextRound(37, Words(0x41a65cb1, 0x65a0cfe4, 0xa9a7738c, 0xfe604df5, 0x0772a26b, 0xf4b002d6, 0x085f3833, 0x59249dd3), 0x766a0abb, 0x72af830a);
    NextRound(38, Words(0x34df1604, 0x41a65cb1, 0x65a0cfe4, 0xa9a7738c, 0xa507a53d, 0x0772a26b, 0xf4b002d6, 0x085f3833), 0x81c2c92e, 0x9409e33e);
    NextRound(39, Words(0x6dc57a8a, 0x34df1604, 0x41a65cb1, 0x65a0cfe4, 0xf0781bc8, 0xa507a53d, 0x0772a26b, 0xf4b002d6), 0x92722c85, 0x24641522);
  }

  lemma RoundsFrom40()
    ensures Rounds(INITIAL, AbcBlock(), 48) == Words(0x4172328d, 0xa14c14b0, 0x72ab4b91, 0x26628815, 0xfecf0bc6, 0xd57b94a9, 0xb7755da1, 0xa80f11f0)
  {
    hide W, Rounds;
    RoundsFrom32();
    WordsFrom40();
    ConstantsOfRow5();
    NextRound(40, Words(0x79ea687a, 0x6dc57a8a, 0x34df1604, 0x41a65cb1, 0x1efbc0a0, 0xf0781bc8, 0xa507a53d, 0x0772a26b), 0xa2bfe8a1, 0x9f47bf94);
    NextRound(41, Words(0xd6670766, 0x79ea687a, 0x6dc57a8a, 0x34df1604, 0x26352d63, 0x1efbc0a0, 0xf0781bc8, 0xa507a53d), 0xa81a664b, 0xf0a64f5a);
    NextRound(42, Words(0xdf46652f, 0xd6670766, 0x79ea687a, 0x6dc57a8a, 0x838b2711, 0x26352d63, 0x1efbc0a0, 0xf0781bc8), 0xc24b8b70, 0x3e246a79);
    NextRound(43, Words(0x17aa0dfe, 0xdf46652f, 0xd6670766, 0x79ea687a, 0xdecd4715, 0x838b2711, 0x26352d63, 0x1efbc0a0), 0xc76c51a3, 0x27333ba3);
    NextRound(44, Words(0x9d4baf93, 0x17aa0dfe, 0xdf46652f, 0xd6670766, 0xfda24c2e, 0xdecd4715, 0x838b2711, 0x26352d63), 0xd192e819, 0x0c4763f2);
    NextRound(45, Words(0x26628815, 0x9d4baf93, 0x17aa0dfe, 0xdf46652f, 0xa80f11f0, 0xfda24c2e, 0xdecd4715, 0x838b2711), 0xd6990624, 0x840abf27);
    NextRound(46, Words(0x72ab4b91, 0x26628815, 0x9d4baf93, 0x17aa0dfe, 0xb7755da1, 0xa80f11f0, 0xfda24c2e, 0xdecd4715), 0xf40e3585, 0x7a290d5d);
    NextRound(47, Words(0xa14c14b0, 0x72ab4b91, 0x26628815, 0x9d4baf93, 0xd57b94a9, 0xb7755da1, 0xa80f11f0, 0xfda24c2e), 0x106aa070, 0x065c43da);
  }

  lemma RoundsFrom48()
    ensures Rounds(INITIAL, AbcBlock(), 56) == Words(0x38cc9913, 0x3ec45cdb, 0xf5702fdb, 0x101fd28f, 0x54cb266b, 0xe50e1b4f, 0x9f4787c3, 0x529e7d00)
  {
    hide W, Rounds;
    RoundsFrom40();
    WordsFrom48();
    ConstantsOfRow6();
    NextRound(48, Words(0x4172328d, 0xa14c14b0, 0x72ab4b91, 0x26628815, 0xfecf0bc6, 0xd57b94a9, 0xb7755da1, 0xa80f11f0), 0x19a4c116, 0xfb3e89cb);
    NextRound(49, Words(0x05757ceb, 0x4172328d, 0xa14c14b0, 0x72ab4b91, 0xbd714038, 0xfecf0bc6, 0xd57b94a9, 0xb7755da1), 0x1e376c08, 0xcc7617db);
    NextRound(50, Words(0xf11bfaa8, 0x05757ceb, 0x4172328d, 0xa14c14b0, 0x6e5c390c, 0xbd714038, 0xfecf0bc6, 0xd57b94a9), 0x2748774c, 0xb9e66c34);
    NextRound(51, Words(0x7a0508a1, 0xf11bfaa8, 0x05757ceb, 0x4172328d, 0x52f1ccf7, 0x6e5c390c, 0xbd714038, 0xfecf0bc6), 0x34b0bcb5, 0xa9993667);
    NextRound(52, Words(0x886e7a22, 0x7a0508a1, 0xf11bfaa8, 0x05757ceb, 0x49231c1e, 0x52f1ccf7, 0x6e5c390c, 0xbd714038), 0x391c0cb3, 0x84badedd);
    NextRound(53, Words(0x101fd28f, 0x886e7a22, 0x7a0508a1, 0xf11bfaa8, 0x529e7d00, 0x49231c1e, 0x52f1ccf7, 0x6e5c390c), 0x4ed8aa4a, 0xc21462bc);
    NextRound(54, Words(0xf5702fdb, 0x101fd28f, 0x886e7a22, 0x7a0508a1, 0x9f4787c3, 0x529e7d00, 0x49231c1e, 0x52f1ccf7), 0x5b9cca4f, 0x1487472c);
    NextRound(55, Words(0x3ec45cdb, 0xf5702fdb, 0x101fd28f, 0x886e7a22, 0xe50e1b4f, 0x9f4787c3, 0x529e7d00, 0x49231c1e), 0x682e6ff3, 0xb20f7a99);
  }

  lemma RoundsFrom56()
    ensures Rounds(INITIAL, AbcBlock(), 64) == Words(0x506e3058, 0xd39a2165, 0x04d24d6c, 0xb85e2ce9, 0x5ef50f24, 0xfb121210, 0x948d25b6, 0x961f4894)
  {
    hide W, Rounds;
    RoundsFrom48();
    WordsFrom56();
    ConstantsOfRow7();
    NextRound(56, Words(0x38cc9913, 0x3ec45cdb, 0xf5702fdb, 0x101fd28f, 0x54cb266b, 0xe50e1b4f, 0x9f4787c3, 0x529e7d00), 0x748f82ee, 0xef57b9cd);
    NextRound(57, Words(0xfcd1887b, 0x38cc9913, 0x3ec45cdb, 0xf5702fdb, 0x9b5e906c, 0x54cb266b, 0xe50e1b4f, 0x9f4787c3), 0x78a5636f, 0xebe6b238);
    NextRound(58, Words(0xc062d46f, 0xfcd1887b, 0x38cc9913, 0x3ec45cdb, 0x7e44008e, 0x9b5e906c, 0x54cb266b, 0xe50e1b4f), 0x84c87814, 0x9fe3095e);
    NextRound(59, Words(0xffb70472, 0xc062d46f, 0xfcd1887b, 0x38cc9913, 0x6d83bfc6, 0x7e44008e, 0x9b5e906c, 0x54cb266b), 0x8cc70208, 0x78bc8d4b);
    NextRound(60, Words(0xb6ae8fff, 0xffb70472, 0xc062d46f, 0xfcd1887b, 0xb21bad3d, 0x6d83bfc6, 0x7e44008e, 0x9b5e906c), 0x90befffa, 0xa43fcf15);
    NextRound(61, Words(0xb85e2ce9, 0xb6ae8fff, 0xffb70472, 0xc062d46f, 0x961f4894, 0xb21bad3d, 0x6d83bfc6, 0x7e44008e), 0xa4506ceb, 0x668b2ff8);
    NextRound(62, Words(0x04d24d6c, 0xb85e2ce9, 0xb6ae8fff, 0xffb70472, 0x948d25b6, 0x961f4894, 0xb21bad3d, 0x6d83bfc6), 0xbef9a3f7, 0xeeaba2cc);
    NextRound(63, Words(0xd39a2165, 0x04d24d6c, 0xb85e2ce9, 0xb6ae8fff, 0xfb121210, 0x948d25b6, 0x961f4894, 0xb21bad3d), 0xc67178f2, 0x12b1edeb);
  }

  lemma ConstantsOfRow0()
    ensures K[0..8] == K0
    ensures K[0] == 0x428a2f98 && K[1] == 0x71374491 && K[2] == 0xb5c0fbcf && K[3] == 0xe9b5dba5 && K[4] == 0x3956c25b && K[5] == 0x59f111f1 && K[6] == 0x923f82a4 && K[7] == 0xab1c5ed5
  {
    assert K[0..8] == K0;
    assert K[0] == K0[0];
    assert K[1] == K0[1];
    assert K[2] == K0[2];
    assert K[3] == K0[3];
    assert K[4] == K0[4];
    assert K[5] == K0[5];
    assert K[6] == K0[6];
    assert K[7] == K0[7];
  }

  lemma ConstantsOfRow1()
    ensures K[8..16] == K1
    ensures K[8] == 0xd807aa98 && K[9] == 0x12835b01 && K[10] == 0x243185be && K[11] == 0x550c7dc3 && K[12] == 0x72be5d74 && K[13] == 0x80deb1fe && K[14] == 0x9bdc06a7 && K[15] == 0xc19bf174
  {
    assert K[8..16] == K1;
    assert K[8] == K1[0];
    assert K[9] == K1[1];
    assert K[10] == K1[2];
    assert K[11] == K1[3];
    assert K[12] == K1[4];
    assert K[13] == K1[5];
    assert K[14] == K1[6];
    assert K[15] == K1[7];
  }

  lemma ConstantsOfRow2()
    ensures K[16..24] == K2
    ensures K[16] == 0xe49b69c1 && K[17] == 0xefbe4786 && K[18] == 0x0fc19dc6 && K[19] == 0x240ca1cc && K[20] == 0x2de92c6f && K[21] == 0x4a7484aa && K[22] == 0x5cb0a9dc && K[23] == 0x76f988da
  {
    assert K[16..24] == K2;
    assert K[16] == K2[0];
    assert K[17] == K2[1];
    assert K[18] == K2[2];
    assert K[19] == K2[3];
    assert K[20] == K2[4];
    assert K[21] == K2[5];
    assert K[22] == K2[6];
    assert K[23] == K2[7];
  }

  lemma ConstantsOfRow3()
    ensures K[24..32] == K3
    ensures K[24] == 0x983e5152 && K[25] == 0xa831c66d && K[26] == 0xb00327c8 && K[27] == 0xbf597fc7 && K[28] == 0xc6e00bf3 && K[29] == 0xd5a79147 && K[30] == 0x06ca6351 && K[31] == 0x14292967
  {
    assert K[24..32] == K3;
    assert K[24] == K3[0];
    assert K[25] == K3[1];
    assert K[26] == K3[2];
    assert K[27] == K3[3];
    assert K[28] == K3[4];
    assert K[29] == K3[5];
    assert K[30] == K3[6];
    assert K[31] == K3[7];
  }

  lemma ConstantsOfRow4()
    ensures K[32..40] == K4
    ensures K[32] == 0x27b70a85 && K[33] == 0x2e1b2138 && K[34] == 0x4d2c6dfc && K[35] == 0x53380d13 && K[36] == 0x650a7354 && K[37] == 0x766a0abb && K[38] == 0x81c2c92e && K[39] == 0x92722c85
  {
    assert K[32..40] == K4;
    assert K[32] == K4[0];
    assert K[33] == K4[1];
    assert K[34] == K4[2];
    assert K[35] == K4[3];
    assert K[36] == K4[4];
    assert K[37] == K4[5];
    assert K[38] == K4[6];
    assert K[39] == K4[7];
  }

  lemma ConstantsOfRow5()
    ensures K[40..48] == K5
    ensures K[40] == 0xa2bfe8a1 && K[41] == 0xa81a664b && K[42] == 0xc24b8b70 && K[43] == 0xc76c51a3 && K[44] == 0xd192e819 && K[45] == 0xd6990624 && K[46] == 0xf40e3585 && K[47] == 0x106aa070
  {
    assert K[40..48] == K5;
    assert K[40] == K5[0];
    assert K[41] == K5[1];
    assert K[42] == K5[2];
    assert K[43] == K5[3];
    assert K[44] == K5[4];
    assert K[45] == K5[5];
    assert K[46] == K5[6];
    assert K[47] == K5[7];
  }

  lemma ConstantsOfRow6()
    ensures K[48..56] == K6
    ensures K[48] == 0x19a4c116 && K[49] == 0x1e376c08 && K[50] == 0x2748774c && K[51] == 0x34b0bcb5 && K[52] == 0x391c0cb3 && K[53] == 0x4ed8aa4a && K[54] == 0x5b9cca4f && K[55] == 0x682e6ff3
  {
    assert K[48..56] == K6;
    assert K[48] == K6[0];
    assert K[49] == K6[1];
    assert K[50] == K6[2];
    assert K[51] == K6[3];
    assert K[52] == K6[4];
    assert K[53] == K6[5];
    assert K[54] == K6[6];
    assert K[55] == K6[7];
  }

  lemma ConstantsOfRow7()
    ensures K[56..64] == K7
    ensures K[56] == 0x748f82ee && K[57] == 0x78a5636f && K[58] == 0x84c87814 && K[59] == 0x8cc70208 && K[60] == 0x90befffa && K[61] == 0xa4506ceb && K[62] == 0xbef9a3f7 && K[63] == 0xc67178f2
  {
    assert K[56..64] == K7;
    assert K[56] == K7[0];
    assert K[57] == K7[1];
    assert K[58] == K7[2];
    assert K[59] == K7[3];
    assert K[60] == K7[4];
    assert K[61] == K7[5];
    assert K[62] == K7[6];
    assert K[63] == K7[7];
  }

  lemma FirstRound()
    ensures Rounds(INITIAL, AbcBlock(), 0) == INITIAL
  {
  }

  /** The hash of "abc" as the standard gives it. */
  lemma HashOfAbc()
    ensures Hash(ABC) == Words(0xba7816bf, 0x8f01cfea, 0x414140de, 0x5dae2223, 0xb00361a3, 0x96177a9c, 0xb410ff61, 0xf20015ad)
  {
    hide Rounds, Padded;
    AbcIsPadded();
    RoundsFrom56();
    assert AbcBlock()[..0] == [] && AbcBlock()[0..] == AbcBlock();
    assert HashBlocks(INITIAL, []) == INITIAL;
    assert HashBlocks(INITIAL, AbcBlock()) == HashBlock(INITIAL, AbcBlock());
  }
}
