/** What the constants and the bit functions of SHA-256 are, in the words of FIPS 180-4. */
module Sha256Meaning {
  import Bytes
  import opened Sha256

  // ---------------------------------------------------------------------
  // Sections 4.2.2 and 5.3.3: roots of primes
  // ---------------------------------------------------------------------

  const TWO_TO_32 := 0x1_0000_0000

  /** The first 64 primes. */
  const P0: seq<nat> := [2, 3, 5, 7, 11, 13, 17, 19]
  const P1: seq<nat> := [23, 29, 31, 37, 41, 43, 47, 53]
  const P2: seq<nat> := [59, 61, 67, 71, 73, 79, 83, 89]
  const P3: seq<nat> := [97, 101, 103, 107, 109, 113, 127, 131]
  const P4: seq<nat> := [137, 139, 149, 151, 157, 163, 167, 173]
  const P5: seq<nat> := [179, 181, 191, 193, 197, 199, 211, 223]
  const P6: seq<nat> := [227, 229, 233, 239, 241, 251, 257, 263]
  const P7: seq<nat> := [269, 271, 277, 281, 283, 293, 307, 311]
  const PRIMES: seq<nat> := P0 + P1 + P2 + P3 + P4 + P5 + P6 + P7

  predicate IsPrime(n: nat) {
    n >= 2 && forall d :: 2 <= d < n ==> n % d != 0
  }

  function Value(word: bv32): nat { word as nat }

  function Square(n: nat): nat { n * n }

  function Cube(n: nat): nat { n * n * n }

  /** `bits` are the first 32 bits of the fractional part of the square root. */
  predicate IsSquareRootFraction(bits: nat, prime: nat) {
    exists whole: nat :: whole < 5 && SquareRootIs(whole * TWO_TO_32 + bits, prime)
  }

  predicate SquareRootIs(root: nat, prime: nat) {
    Square(root) <= prime * 0x1_0000_0000_0000_0000 < Square(root + 1)
  }

  /** `bits` are the first 32 bits of the fractional part of the cube root. */
  predicate IsCubeRootFraction(bits: nat, prime: nat) {
    exists whole: nat :: whole < 7 && CubeRootIs(whole * TWO_TO_32 + bits, prime)
  }

  predicate CubeRootIs(root: nat, prime: nat) {
    Cube(root) <= prime * 0x1_0000_0000_0000_0000_0000_0000 < Cube(root + 1)
  }

  /** The initial hash value: the square roots of the first eight primes. */
  lemma InitialIsSquareRoots()
    ensures IsSquareRootFraction(Value(INITIAL.a), 2)
    ensures IsSquareRootFraction(Value(INITIAL.b), 3)
    ensures IsSquareRootFraction(Value(INITIAL.c), 5)
    ensures IsSquareRootFraction(Value(INITIAL.d), 7)
    ensures IsSquareRootFraction(Value(INITIAL.e), 11)
    ensures IsSquareRootFraction(Value(INITIAL.f), 13)
    ensures IsSquareRootFraction(Value(INITIAL.g), 17)
    ensures IsSquareRootFraction(Value(INITIAL.h), 19)
  {
    assert SquareRootIs(1 * TWO_TO_32 + Value(INITIAL.a), 2);
    assert SquareRootIs(1 * TWO_TO_32 + Value(INITIAL.b), 3);
    assert SquareRootIs(2 * TWO_TO_32 + Value(INITIAL.c), 5);
    assert SquareRootIs(2 * TWO_TO_32 + Value(INITIAL.d), 7);
    assert SquareRootIs(3 * TWO_TO_32 + Value(INITIAL.e), 11);
    assert SquareRootIs(3 * TWO_TO_32 + Value(INITIAL.f), 13);
    assert SquareRootIs(4 * TWO_TO_32 + Value(INITIAL.g), 17);
    assert SquareRootIs(4 * TWO_TO_32 + Value(INITIAL.h), 19);
  }

  lemma RootsFrom0()
    ensures IsCubeRootFraction(0x428a2f98, 2)
    ensures IsCubeRootFraction(0x71374491, 3)
    ensures IsCubeRootFraction(0xb5c0fbcf, 5)
    ensures IsCubeRootFraction(0xe9b5dba5, 7)
    ensures IsCubeRootFraction(0x3956c25b, 11)
    ensures IsCubeRootFraction(0x59f111f1, 13)
    ensures IsCubeRootFraction(0x923f82a4, 17)
    ensures IsCubeRootFraction(0xab1c5ed5, 19)
  {
    assert CubeRootIs(1 * TWO_TO_32 + 0x428a2f98, 2);
    assert CubeRootIs(1 * TWO_TO_32 + 0x71374491, 3);
    assert CubeRootIs(1 * TWO_TO_32 + 0xb5c0fbcf, 5);
    assert CubeRootIs(1 * TWO_TO_32 + 0xe9b5dba5, 7);
    assert CubeRootIs(2 * TWO_TO_32 + 0x3956c25b, 11);
    assert CubeRootIs(2 * TWO_TO_32 + 0x59f111f1, 13);
    assert CubeRootIs(2 * TWO_TO_32 + 0x923f82a4, 17);
    assert CubeRootIs(2 * TWO_TO_32 + 0xab1c5ed5, 19);
  }

  lemma ValuesFrom0()
    ensures Value(0x428a2f98) == 0x428a2f98
    ensures Value(0x71374491) == 0x71374491
    ensures Value(0xb5c0fbcf) == 0xb5c0fbcf
    ensures Value(0xe9b5dba5) == 0xe9b5dba5
    ensures Value(0x3956c25b) == 0x3956c25b
    ensures Value(0x59f111f1) == 0x59f111f1
    ensures Value(0x923f82a4) == 0x923f82a4
    ensures Value(0xab1c5ed5) == 0xab1c5ed5
  {
  }

  lemma ConstantsFrom0()
    ensures |K0| == 8 && |P0| == 8 && forall t :: 0 <= t < 8 ==> IsCubeRootFraction(Value(K0[t]), P0[t])
  {
    hide IsCubeRootFraction, Value;
    RootsFrom0();
    ValuesFrom0();
    assert K0[0] == 0x428a2f98 && P0[0] == 2;
    assert K0[1] == 0x71374491 && P0[1] == 3;
    assert K0[2] == 0xb5c0fbcf && P0[2] == 5;
    assert K0[3] == 0xe9b5dba5 && P0[3] == 7;
    assert K0[4] == 0x3956c25b && P0[4] == 11;
    assert K0[5] == 0x59f111f1 && P0[5] == 13;
    assert K0[6] == 0x923f82a4 && P0[6] == 17;
    assert K0[7] == 0xab1c5ed5 && P0[7] == 19;
  }

  lemma RootsFrom8()
    ensures IsCubeRootFraction(0xd807aa98, 23)
    ensures IsCubeRootFraction(0x12835b01, 29)
    ensures IsCubeRootFraction(0x243185be, 31)
    ensures IsCubeRootFraction(0x550c7dc3, 37)
    ensures IsCubeRootFraction(0x72be5d74, 41)
    ensures IsCubeRootFraction(0x80deb1fe, 43)
    ensures IsCubeRootFraction(0x9bdc06a7, 47)
    ensures IsCubeRootFraction(0xc19bf174, 53)
  {
    assert CubeRootIs(2 * TWO_TO_32 + 0xd807aa98, 23);
    assert CubeRootIs(3 * TWO_TO_32 + 0x12835b01, 29);
    assert CubeRootIs(3 * TWO_TO_32 + 0x243185be, 31);
    assert CubeRootIs(3 * TWO_TO_32 + 0x550c7dc3, 37);
    assert CubeRootIs(3 * TWO_TO_32 + 0x72be5d74, 41);
    assert CubeRootIs(3 * TWO_TO_32 + 0x80deb1fe, 43);
    assert CubeRootIs(3 * TWO_TO_32 + 0x9bdc06a7, 47);
    assert CubeRootIs(3 * TWO_TO_32 + 0xc19bf174, 53);
  }

  lemma ValuesFrom8()
    ensures Value(0xd807aa98) == 0xd807aa98
    ensures Value(0x12835b01) == 0x12835b01
    ensures Value(0x243185be) == 0x243185be
    ensures Value(0x550c7dc3) == 0x550c7dc3
    ensures Value(0x72be5d74) == 0x72be5d74
    ensures Value(0x80deb1fe) == 0x80deb1fe
    ensures Value(0x9bdc06a7) == 0x9bdc06a7
    ensures Value(0xc19bf174) == 0xc19bf174
  {
  }

  lemma ConstantsFrom8()
    ensures |K1| == 8 && |P1| == 8 && forall t :: 0 <= t < 8 ==> IsCubeRootFraction(Value(K1[t]), P1[t])
  {
    hide IsCubeRootFraction, Value;
    RootsFrom8();
    ValuesFrom8();
    assert K1[0] == 0xd807aa98 && P1[0] == 23;
    assert K1[1] == 0x12835b01 && P1[1] == 29;
    assert K1[2] == 0x243185be && P1[2] == 31;
    assert K1[3] == 0x550c7dc3 && P1[3] == 37;
    assert K1[4] == 0x72be5d74 && P1[4] == 41;
    assert K1[5] == 0x80deb1fe && P1[5] == 43;
    assert K1[6] == 0x9bdc06a7 && P1[6] == 47;
    assert K1[7] == 0xc19bf174 && P1[7] == 53;
  }

  lemma RootsFrom16()
    ensures IsCubeRootFraction(0xe49b69c1, 59)
    ensures IsCubeRootFraction(0xefbe4786, 61)
    ensures IsCubeRootFraction(0x0fc19dc6, 67)
    ensures IsCubeRootFraction(0x240ca1cc, 71)
    ensures IsCubeRootFraction(0x2de92c6f, 73)
    ensures IsCubeRootFraction(0x4a7484aa, 79)
    ensures IsCubeRootFraction(0x5cb0a9dc, 83)
    ensures IsCubeRootFraction(0x76f988da, 89)
  {
    assert CubeRootIs(3 * TWO_TO_32 + 0xe49b69c1, 59);
    assert CubeRootIs(3 * TWO_TO_32 + 0xefbe4786, 61);
    assert CubeRootIs(4 * TWO_TO_32 + 0x0fc19dc6, 67);
    assert CubeRootIs(4 * TWO_TO_32 + 0x240ca1cc, 71);
    assert CubeRootIs(4 * TWO_TO_32 + 0x2de92c6f, 73);
    assert CubeRootIs(4 * TWO_TO_32 + 0x4a7484aa, 79);
    assert CubeRootIs(4 * TWO_TO_32 + 0x5cb0a9dc, 83);
    assert CubeRootIs(4 * TWO_TO_32 + 0x76f988da, 89);
  }

  lemma ValuesFrom16()
    ensures Value(0xe49b69c1) == 0xe49b69c1
    ensures Value(0xefbe4786) == 0xefbe4786
    ensures Value(0x0fc19dc6) == 0x0fc19dc6
    ensures Value(0x240ca1cc) == 0x240ca1cc
    ensures Value(0x2de92c6f) == 0x2de92c6f
    ensures Value(0x4a7484aa) == 0x4a7484aa
    ensures Value(0x5cb0a9dc) == 0x5cb0a9dc
    ensures Value(0x76f988da) == 0x76f988da
  {
  }

  lemma ConstantsFrom16()
    ensures |K2| == 8 && |P2| == 8 && forall t :: 0 <= t < 8 ==> IsCubeRootFraction(Value(K2[t]), P2[t])
  {
    hide IsCubeRootFraction, Value;
    RootsFrom16();
    ValuesFrom16();
    assert K2[0] == 0xe49b69c1 && P2[0] == 59;
    assert K2[1] == 0xefbe4786 && P2[1] == 61;
    assert K2[2] == 0x0fc19dc6 && P2[2] == 67;
    assert K2[3] == 0x240ca1cc && P2[3] == 71;
    assert K2[4] == 0x2de92c6f && P2[4] == 73;
    assert K2[5] == 0x4a7484aa && P2[5] == 79;
    assert K2[6] == 0x5cb0a9dc && P2[6] == 83;
    assert K2[7] == 0x76f988da && P2[7] == 89;
  }

  lemma RootsFrom24()
    ensures IsCubeRootFraction(0x983e5152, 97)
    ensures IsCubeRootFraction(0xa831c66d, 101)
    ensures IsCubeRootFraction(0xb00327c8, 103)
    ensures IsCubeRootFraction(0xbf597fc7, 107)
    ensures IsCubeRootFraction(0xc6e00bf3, 109)
    ensures IsCubeRootFraction(0xd5a79147, 113)
    ensures IsCubeRootFraction(0x06ca6351, 127)
    ensures IsCubeRootFraction(0x14292967, 131)
  {
    assert CubeRootIs(4 * TWO_TO_32 + 0x983e5152, 97);
    assert CubeRootIs(4 * TWO_TO_32 + 0xa831c66d, 101);
    assert CubeRootIs(4 * TWO_TO_32 + 0xb00327c8, 103);
    assert CubeRootIs(4 * TWO_TO_32 + 0xbf597fc7, 107);
    assert CubeRootIs(4 * TWO_TO_32 + 0xc6e00bf3, 109);
    assert CubeRootIs(4 * TWO_TO_32 + 0xd5a79147, 113);
    assert CubeRootIs(5 * TWO_TO_32 + 0x06ca6351, 127);
    assert CubeRootIs(5 * TWO_TO_32 + 0x14292967, 131);
  }

  lemma ValuesFrom24()
    ensures Value(0x983e5152) == 0x983e5152
    ensures Value(0xa831c66d) == 0xa831c66d
    ensures Value(0xb00327c8) == 0xb00327c8
    ensures Value(0xbf597fc7) == 0xbf597fc7
    ensures Value(0xc6e00bf3) == 0xc6e00bf3
    ensures Value(0xd5a79147) == 0xd5a79147
    ensures Value(0x06ca6351) == 0x06ca6351
    ensures Value(0x14292967) == 0x14292967
  {
  }

  lemma ConstantsFrom24()
    ensures |K3| == 8 && |P3| == 8 && forall t :: 0 <= t < 8 ==> IsCubeRootFraction(Value(K3[t]), P3[t])
  {
    hide IsCubeRootFraction, Value;
    RootsFrom24();
    ValuesFrom24();
    assert K3[0] == 0x983e5152 && P3[0] == 97;
    assert K3[1] == 0xa831c66d && P3[1] == 101;
    assert K3[2] == 0xb00327c8 && P3[2] == 103;
    assert K3[3] == 0xbf597fc7 && P3[3] == 107;
    assert K3[4] == 0xc6e00bf3 && P3[4] == 109;
    assert K3[5] == 0xd5a79147 && P3[5] == 113;
    assert K3[6] == 0x06ca6351 && P3[6] == 127;
    assert K3[7] == 0x14292967 && P3[7] == 131;
  }

  lemma RootsFrom32()
    ensures IsCubeRootFraction(0x27b70a85, 137)
    ensures IsCubeRootFraction(0x2e1b2138, 139)
    ensures IsCubeRootFraction(0x4d2c6dfc, 149)
    ensures IsCubeRootFraction(0x53380d13, 151)
    ensures IsCubeRootFraction(0x650a7354, 157)
    ensures IsCubeRootFraction(0x766a0abb, 163)
    ensures IsCubeRootFraction(0x81c2c92e, 167)
    ensures IsCubeRootFraction(0x92722c85, 173)
  {
    assert CubeRootIs(5 * TWO_TO_32 + 0x27b70a85, 137);
    assert CubeRootIs(5 * TWO_TO_32 + 0x2e1b2138, 139);
    assert CubeRootIs(5 * TWO_TO_32 + 0x4d2c6dfc, 149);
    assert CubeRootIs(5 * TWO_TO_32 + 0x53380d13, 151);
    assert CubeRootIs(5 * TWO_TO_32 + 0x650a7354, 157);
    assert CubeRootIs(5 * TWO_TO_32 + 0x766a0abb, 163);
    assert CubeRootIs(5 * TWO_TO_32 + 0x81c2c92e, 167);
    assert CubeRootIs(5 * TWO_TO_32 + 0x92722c85, 173);
  }

  lemma ValuesFrom32()
    ensures Value(0x27b70a85) == 0x27b70a85
    ensures Value(0x2e1b2138) == 0x2e1b2138
    ensures Value(0x4d2c6dfc) == 0x4d2c6dfc
    ensures Value(0x53380d13) == 0x53380d13
    ensures Value(0x650a7354) == 0x650a7354
    ensures Value(0x766a0abb) == 0x766a0abb
    ensures Value(0x81c2c92e) == 0x81c2c92e
    ensures Value(0x92722c85) == 0x92722c85
  {
  }

  lemma ConstantsFrom32()
    ensures |K4| == 8 && |P4| == 8 && forall t :: 0 <= t < 8 ==> IsCubeRootFraction(Value(K4[t]), P4[t])
  {
    hide IsCubeRootFraction, Value;
    RootsFrom32();
    ValuesFrom32();
    assert K4[0] == 0x27b70a85 && P4[0] == 137;
    assert K4[1] == 0x2e1b2138 && P4[1] == 139;
    assert K4[2] == 0x4d2c6dfc && P4[2] == 149;
    assert K4[3] == 0x53380d13 && P4[3] == 151;
    assert K4[4] == 0x650a7354 && P4[4] == 157;
    assert K4[5] == 0x766a0abb && P4[5] == 163;
    assert K4[6] == 0x81c2c92e && P4[6] == 167;
    assert K4[7] == 0x92722c85 && P4[7] == 173;
  }

  lemma RootsFrom40()
    ensures IsCubeRootFraction(0xa2bfe8a1, 179)
    ensures IsCubeRootFraction(0xa81a664b, 181)
    ensures IsCubeRootFraction(0xc24b8b70, 191)
    ensures IsCubeRootFraction(0xc76c51a3, 193)
    ensures IsCubeRootFraction(0xd192e819, 197)
    ensures IsCubeRootFraction(0xd6990624, 199)
    ensures IsCubeRootFraction(0xf40e3585, 211)
    ensures IsCubeRootFraction(0x106aa070, 223)
  {
    assert CubeRootIs(5 * TWO_TO_32 + 0xa2bfe8a1, 179);
    assert CubeRootIs(5 * TWO_TO_32 + 0xa81a664b, 181);
    assert CubeRootIs(5 * TWO_TO_32 + 0xc24b8b70, 191);
    assert CubeRootIs(5 * TWO_TO_32 + 0xc76c51a3, 193);
    assert CubeRootIs(5 * TWO_TO_32 + 0xd192e819, 197);
    assert CubeRootIs(5 * TWO_TO_32 + 0xd6990624, 199);
    assert CubeRootIs(5 * TWO_TO_32 + 0xf40e3585, 211);
    assert CubeRootIs(6 * TWO_TO_32 + 0x106aa070, 223);
  }

  lemma ValuesFrom40()
    ensures Value(0xa2bfe8a1) == 0xa2bfe8a1
    ensures Value(0xa81a664b) == 0xa81a664b
    ensures Value(0xc24b8b70) == 0xc24b8b70
    ensures Value(0xc76c51a3) == 0xc76c51a3
    ensures Value(0xd192e819) == 0xd192e819
    ensures Value(0xd6990624) == 0xd6990624
    ensures Value(0xf40e3585) == 0xf40e3585
    ensures Value(0x106aa070) == 0x106aa070
  {
  }

  lemma ConstantsFrom40()
    ensures |K5| == 8 && |P5| == 8 && forall t :: 0 <= t < 8 ==> IsCubeRootFraction(Value(K5[t]), P5[t])
  {
    hide IsCubeRootFraction, Value;
    RootsFrom40();
    ValuesFrom40();
    assert K5[0] == 0xa2bfe8a1 && P5[0] == 179;
    assert K5[1] == 0xa81a664b && P5[1] == 181;
    assert K5[2] == 0xc24b8b70 && P5[2] == 191;
    assert K5[3] == 0xc76c51a3 && P5[3] == 193;
    assert K5[4] == 0xd192e819 && P5[4] == 197;
    assert K5[5] == 0xd6990624 && P5[5] == 199;
    assert K5[6] == 0xf40e3585 && P5[6] == 211;
    assert K5[7] == 0x106aa070 && P5[7] == 223;
  }

  lemma RootsFrom48()
    ensures IsCubeRootFraction(0x19a4c116, 227)
    ensures IsCubeRootFraction(0x1e376c08, 229)
    ensures IsCubeRootFraction(0x2748774c, 233)
    ensures IsCubeRootFraction(0x34b0bcb5, 239)
    ensures IsCubeRootFraction(0x391c0cb3, 241)
    ensures IsCubeRootFraction(0x4ed8aa4a, 251)
    ensures IsCubeRootFraction(0x5b9cca4f, 257)
    ensures IsCubeRootFraction(0x682e6ff3, 263)
  {
    assert CubeRootIs(6 * TWO_TO_32 + 0x19a4c116, 227);
    assert CubeRootIs(6 * TWO_TO_32 + 0x1e376c08, 229);
    assert CubeRootIs(6 * TWO_TO_32 + 0x2748774c, 233);
    assert CubeRootIs(6 * TWO_TO_32 + 0x34b0bcb5, 239);
    assert CubeRootIs(6 * TWO_TO_32 + 0x391c0cb3, 241);
    assert CubeRootIs(6 * TWO_TO_32 + 0x4ed8aa4a, 251);
    assert CubeRootIs(6 * TWO_TO_32 + 0x5b9cca4f, 257);
    assert CubeRootIs(6 * TWO_TO_32 + 0x682e6ff3, 263);
  }

  lemma ValuesFrom48()
    ensures Value(0x19a4c116) == 0x19a4c116
    ensures Value(0x1e376c08) == 0x1e376c08
    ensures Value(0x2748774c) == 0x2748774c
    ensures Value(0x34b0bcb5) == 0x34b0bcb5
    ensures Value(0x391c0cb3) == 0x391c0cb3
    ensures Value(0x4ed8aa4a) == 0x4ed8aa4a
    ensures Value(0x5b9cca4f) == 0x5b9cca4f
    ensures Value(0x682e6ff3) == 0x682e6ff3
  {
  }

  lemma ConstantsFrom48()
    ensures |K6| == 8 && |P6| == 8 && forall t :: 0 <= t < 8 ==> IsCubeRootFraction(Value(K6[t]), P6[t])
  {
    hide IsCubeRootFraction, Value;
    RootsFrom48();
    ValuesFrom48();
    assert K6[0] == 0x19a4c116 && P6[0] == 227;
    assert K6[1] == 0x1e376c08 && P6[1] == 229;
    assert K6[2] == 0x2748774c && P6[2] == 233;
    assert K6[3] == 0x34b0bcb5 && P6[3] == 239;
    assert K6[4] == 0x391c0cb3 && P6[4] == 241;
    assert K6[5] == 0x4ed8aa4a && P6[5] == 251;
    assert K6[6] == 0x5b9cca4f && P6[6] == 257;
    assert K6[7] == 0x682e6ff3 && P6[7] == 263;
  }

  lemma RootsFrom56()
    ensures IsCubeRootFraction(0x748f82ee, 269)
    ensures IsCubeRootFraction(0x78a5636f, 271)
    ensures IsCubeRootFraction(0x84c87814, 277)
    ensures IsCubeRootFraction(0x8cc70208, 281)
    ensures IsCubeRootFraction(0x90befffa, 283)
    ensures IsCubeRootFraction(0xa4506ceb, 293)
    ensures IsCubeRootFraction(0xbef9a3f7, 307)
    ensures IsCubeRootFraction(0xc67178f2, 311)
  {
    assert CubeRootIs(6 * TWO_TO_32 + 0x748f82ee, 269);
    assert CubeRootIs(6 * TWO_TO_32 + 0x78a5636f, 271);
    assert CubeRootIs(6 * TWO_TO_32 + 0x84c87814, 277);
    assert CubeRootIs(6 * TWO_TO_32 + 0x8cc70208, 281);
    assert CubeRootIs(6 * TWO_TO_32 + 0x90befffa, 283);
    assert CubeRootIs(6 * TWO_TO_32 + 0xa4506ceb, 293);
    assert CubeRootIs(6 * TWO_TO_32 + 0xbef9a3f7, 307);
    assert CubeRootIs(6 * TWO_TO_32 + 0xc67178f2, 311);
  }

  lemma ValuesFrom56()
    ensures Value(0x748f82ee) == 0x748f82ee
    ensures Value(0x78a5636f) == 0x78a5636f
    ensures Value(0x84c87814) == 0x84c87814
    ensures Value(0x8cc70208) == 0x8cc70208
    ensures Value(0x90befffa) == 0x90befffa
    ensures Value(0xa4506ceb) == 0xa4506ceb
    ensures Value(0xbef9a3f7) == 0xbef9a3f7
    ensures Value(0xc67178f2) == 0xc67178f2
  {
  }

  lemma ConstantsFrom56()
    ensures |K7| == 8 && |P7| == 8 && forall t :: 0 <= t < 8 ==> IsCubeRootFraction(Value(K7[t]), P7[t])
  {
    hide IsCubeRootFraction, Value;
    RootsFrom56();
    ValuesFrom56();
    assert K7[0] == 0x748f82ee && P7[0] == 269;
    assert K7[1] == 0x78a5636f && P7[1] == 271;
    assert K7[2] == 0x84c87814 && P7[2] == 277;
    assert K7[3] == 0x8cc70208 && P7[3] == 281;
    assert K7[4] == 0x90befffa && P7[4] == 283;
    assert K7[5] == 0xa4506ceb && P7[5] == 293;
    assert K7[6] == 0xbef9a3f7 && P7[6] == 307;
    assert K7[7] == 0xc67178f2 && P7[7] == 311;
  }

  /** The round constants: the cube roots of the first 64 primes. */
  lemma ConstantsAreCubeRoots()
    ensures |K| == 64 && |PRIMES| == 64
    ensures forall t :: 0 <= t < 64 ==> IsCubeRootFraction(Value(K[t]), PRIMES[t])
  {
    hide IsCubeRootFraction, Value;
    ConstantsFrom0();
    ConstantsFrom8();
    ConstantsFrom16();
    ConstantsFrom24();
    ConstantsFrom32();
    ConstantsFrom40();
    ConstantsFrom48();
    ConstantsFrom56();
    forall t | 0 <= t < 64 ensures IsCubeRootFraction(Value(K[t]), PRIMES[t]) {
      assert K[t] == if t < 8 then K0[t]
             else if t < 16 then K1[t - 8]
             else if t < 24 then K2[t - 16]
             else if t < 32 then K3[t - 24]
             else if t < 40 then K4[t - 32]
             else if t < 48 then K5[t - 40]
             else if t < 56 then K6[t - 48]
             else K7[t - 56];
      assert PRIMES[t] == if t < 8 then P0[t]
             else if t < 16 then P1[t - 8]
             else if t < 24 then P2[t - 16]
             else if t < 32 then P3[t - 24]
             else if t < 40 then P4[t - 32]
             else if t < 48 then P5[t - 40]
             else if t < 56 then P6[t - 48]
             else P7[t - 56];
    }
  }

  // ---------------------------------------------------------------------
  // The list of primes is complete
  // ---------------------------------------------------------------------

  /** No prime below 18 divides the number properly; enough below 18 times 18. */
  predicate Sieved(n: nat) {
    && (n == 2 || n % 2 != 0) && (n == 3 || n % 3 != 0) && (n == 5 || n % 5 != 0) && (n == 7 || n % 7 != 0)
    && (n == 11 || n % 11 != 0) && (n == 13 || n % 13 != 0) && (n == 17 || n % 17 != 0)
  }

  lemma SmallFactor(n: nat, d: nat)
    requires 2 <= d <= 17 && d < n && n % d == 0
    ensures !Sieved(n)
  {
    hide Sieved;
    NotSieved(n);
    if d in {4, 6, 8, 10, 12, 14, 16} {
      EvenFactor(n, d);
    } else if d == 9 || d == 15 {
      ThirdFactor(n, d);
    }
  }

  lemma NotSieved(n: nat)
    ensures forall q :: q in {2, 3, 5, 7, 11, 13, 17} && q < n && n % q == 0 ==> !Sieved(n)
  {
  }

  lemma EvenFactor(n: nat, d: nat)
    requires d in {4, 6, 8, 10, 12, 14, 16} && n % d == 0
    ensures n % 2 == 0
  {
  }

  lemma ThirdFactor(n: nat, d: nat)
    requires d in {9, 15} && n % d == 0
    ensures n % 3 == 0
  {
  }

  lemma SievedIsPrime(n: nat)
    requires 2 <= n < 324
    ensures Sieved(n) <==> IsPrime(n)
  {
    if IsPrime(n) {
      if !Sieved(n) {
        var q :| q in {2, 3, 5, 7, 11, 13, 17} && n != q && n % q == 0;
        TooSmall(n, q);
        assert false;
      }
    } else {
      var d :| 2 <= d < n && n % d == 0;
      var e := n / d;
      assert n == d * e;
      if d <= 17 {
        SmallFactor(n, d);
      } else {
        OtherFactor(n, d, e);
        SmallFactor(n, e);
      }
    }
  }

  lemma TooSmall(n: nat, q: nat)
    requires n >= 2 && q > 0 && n % q == 0
    ensures q <= n
  {
  }

  lemma OtherFactor(n: nat, d: nat, e: nat)
    requires 18 <= d < n < 324 && n == d * e
    ensures 2 <= e <= 17 && e < n && n % e == 0
  {
    FactorIsSmall(d, e);
    MultipleDivides(d, e);
  }

  lemma FactorIsSmall(d: nat, e: nat)
    requires 18 <= d < d * e < 324
    ensures 2 <= e <= 17 && e < d * e
  {
    if e >= 18 {
      Grows(18, d, 18);
      Grows(18, e, d);
    }
    Grows(2, d, e);
  }

  lemma Grows(a: nat, b: nat, factor: nat)
    requires a <= b
    ensures a * factor <= b * factor == factor * b
  {
  }

  lemma MultipleDivides(d: nat, e: nat)
    requires e > 0
    ensures (d * e) % e == 0
  {
    Bytes.Quotient(d * e, e, d, 0);
    assert d * e == ((d * e) / e) * e + (d * e) % e;
  }

  lemma PrimesUpTo10(n: nat)
    requires 2 <= n <= 10
    ensures Sieved(n) <==> n in P0
  {
  }

  lemma PrimesUpTo19(n: nat)
    requires 11 <= n <= 19
    ensures Sieved(n) <==> n in P0
  {
  }

  lemma PrimesUpTo31(n: nat)
    requires 20 <= n <= 31
    ensures Sieved(n) <==> n in P1
  {
  }

  lemma PrimesUpTo43(n: nat)
    requires 32 <= n <= 43
    ensures Sieved(n) <==> n in P1
  {
  }

  lemma PrimesUpTo53(n: nat)
    requires 44 <= n <= 53
    ensures Sieved(n) <==> n in P1
  {
  }

  lemma PrimesUpTo65(n: nat)
    requires 54 <= n <= 65
    ensures Sieved(n) <==> n in P2
  {
  }

  lemma PrimesUpTo77(n: nat)
    requires 66 <= n <= 77
    ensures Sieved(n) <==> n in P2
  {
  }

  lemma PrimesUpTo89(n: nat)
    requires 78 <= n <= 89
    ensures Sieved(n) <==> n in P2
  {
  }

  lemma PrimesUpTo103(n: nat)
    requires 90 <= n <= 103
    ensures Sieved(n) <==> n in P3
  {
  }

  lemma PrimesUpTo117(n: nat)
    requires 104 <= n <= 117
    ensures Sieved(n) <==> n in P3
  {
  }

  lemma PrimesUpTo131(n: nat)
    requires 118 <= n <= 131
    ensures Sieved(n) <==> n in P3
  {
  }

  lemma PrimesUpTo145(n: nat)
    requires 132 <= n <= 145
    ensures Sieved(n) <==> n in P4
  {
  }

  lemma PrimesUpTo159(n: nat)
    requires 146 <= n <= 159
    ensures Sieved(n) <==> n in P4
  {
  }

  lemma PrimesUpTo173(n: nat)
    requires 160 <= n <= 173
    ensures Sieved(n) <==> n in P4
  {
  }

  lemma PrimesUpTo186(n: nat)
    requires 174 <= n <= 186
    ensures Sieved(n) <==> n in P5
  {
  }

  lemma PrimesUpTo199(n: nat)
    requires 187 <= n <= 199
    ensures Sieved(n) <==> n in P5
  {
  }

  lemma PrimesUpTo212(n: nat)
    requires 200 <= n <= 212
    ensures Sieved(n) <==> n in P5
  {
  }

  lemma PrimesUpTo223(n: nat)
    requires 213 <= n <= 223
    ensures Sieved(n) <==> n in P5
  {
  }

  lemma PrimesUpTo237(n: nat)
    requires 224 <= n <= 237
    ensures Sieved(n) <==> n in P6
  {
  }

  lemma PrimesUpTo251(n: nat)
    requires 238 <= n <= 251
    ensures Sieved(n) <==> n in P6
  {
  }

  lemma PrimesUpTo263(n: nat)
    requires 252 <= n <= 263
    ensures Sieved(n) <==> n in P6
  {
  }

  lemma PrimesUpTo275(n: nat)
    requires 264 <= n <= 275
    ensures Sieved(n) <==> n in P7
  {
  }

  lemma PrimesUpTo287(n: nat)
    requires 276 <= n <= 287
    ensures Sieved(n) <==> n in P7
  {
  }

  lemma PrimesUpTo299(n: nat)
    requires 288 <= n <= 299
    ensures Sieved(n) <==> n in P7
  {
  }

  lemma PrimesUpTo311(n: nat)
    requires 300 <= n <= 311
    ensures Sieved(n) <==> n in P7
  {
  }

  lemma RowsAreApart(n: nat)
    ensures n in P0 ==> 2 <= n <= 19
    ensures n in P1 ==> 20 <= n <= 53
    ensures n in P2 ==> 54 <= n <= 89
    ensures n in P3 ==> 90 <= n <= 131
    ensures n in P4 ==> 132 <= n <= 173
    ensures n in P5 ==> 174 <= n <= 223
    ensures n in P6 ==> 224 <= n <= 263
    ensures n in P7 ==> 264 <= n <= 311
  {
  }

  lemma InSomeRow(n: nat)
    ensures n in PRIMES <==> n in P0 || n in P1 || n in P2 || n in P3 || n in P4 || n in P5 || n in P6 || n in P7
  {
    Joined(P0, P1, n);
    Joined(P0 + P1, P2, n);
    Joined(P0 + P1 + P2, P3, n);
    Joined(P0 + P1 + P2 + P3, P4, n);
    Joined(P0 + P1 + P2 + P3 + P4, P5, n);
    Joined(P0 + P1 + P2 + P3 + P4 + P5, P6, n);
    Joined(P0 + P1 + P2 + P3 + P4 + P5 + P6, P7, n);
  }

  lemma Joined(a: seq<nat>, b: seq<nat>, n: nat)
    ensures n in a + b <==> n in a || n in b
  {
  }

  lemma SievedMeansListed(n: nat)
    requires 2 <= n <= 311
    ensures Sieved(n) <==> n in PRIMES
  {
    hide Sieved;
    RowsAreApart(n);
    InSomeRow(n);
    if n <= 10 { PrimesUpTo10(n); }
    else if n <= 19 { PrimesUpTo19(n); }
    else if n <= 31 { PrimesUpTo31(n); }
    else if n <= 43 { PrimesUpTo43(n); }
    else if n <= 53 { PrimesUpTo53(n); }
    else if n <= 65 { PrimesUpTo65(n); }
    else if n <= 77 { PrimesUpTo77(n); }
    else if n <= 89 { PrimesUpTo89(n); }
    else if n <= 103 { PrimesUpTo103(n); }
    else if n <= 117 { PrimesUpTo117(n); }
    else if n <= 131 { PrimesUpTo131(n); }
    else if n <= 145 { PrimesUpTo145(n); }
    else if n <= 159 { PrimesUpTo159(n); }
    else if n <= 173 { PrimesUpTo173(n); }
    else if n <= 186 { PrimesUpTo186(n); }
    else if n <= 199 { PrimesUpTo199(n); }
    else if n <= 212 { PrimesUpTo212(n); }
    else if n <= 223 { PrimesUpTo223(n); }
    else if n <= 237 { PrimesUpTo237(n); }
    else if n <= 251 { PrimesUpTo251(n); }
    else if n <= 263 { PrimesUpTo263(n); }
    else if n <= 275 { PrimesUpTo275(n); }
    else if n <= 287 { PrimesUpTo287(n); }
    else if n <= 299 { PrimesUpTo299(n); }
    else if n <= 311 { PrimesUpTo311(n); }
  }

  /** The list holds exactly the primes up to its last entry. */
  lemma PrimesAreAll(n: nat)
    requires 2 <= n <= 311
    ensures n in PRIMES <==> IsPrime(n)
  {
    hide Sieved, IsPrime;
    SievedIsPrime(n);
    SievedMeansListed(n);
  }

  // ---------------------------------------------------------------------
  // Section 4.1.2: the functions bit by bit
  // ---------------------------------------------------------------------

  /** Where the first argument has a one, Ch has the bit of the second; elsewhere that of the
      third. */
  lemma ChChooses(x: bv32, y: bv32, z: bv32)
    ensures Ch(x, y, z) & x == y & x
    ensures Ch(x, y, z) & !x == z & !x
  {
  }

  /** Where two arguments agree, Maj has the bit that they agree on; and two always do. */
  lemma MajIsMajority(x: bv32, y: bv32, z: bv32)
    ensures Maj(x, y, z) & !(x ^ y) == x & !(x ^ y)
    ensures Maj(x, y, z) & !(x ^ z) == x & !(x ^ z)
    ensures Maj(x, y, z) & !(y ^ z) == y & !(y ^ z)
    ensures !(x ^ y) | !(x ^ z) | !(y ^ z) == 0xFFFFFFFF
  {
    hide Maj;
    MajAgrees(x, y, z);
    MajAgrees(x, z, y);
    MajAgrees(y, z, x);
    MajIsSymmetric(x, y, z);
    TwoAgree(x, y, z);
  }

  lemma MajAgrees(x: bv32, y: bv32, z: bv32)
    ensures Maj(x, y, z) & !(x ^ y) == x & !(x ^ y)
  {
  }

  lemma MajIsSymmetric(x: bv32, y: bv32, z: bv32)
    ensures Maj(x, y, z) == Maj(x, z, y) == Maj(y, z, x)
  {
  }

  lemma TwoAgree(x: bv32, y: bv32, z: bv32)
    ensures !(x ^ y) | !(x ^ z) | !(y ^ z) == 0xFFFFFFFF
  {
  }

  /** A rotation loses nothing: shifted back it has the high bits of the word, and shifted
      on it has the low ones. */
  predicate Rotates(x: bv32, r: bv32, n: bv8)
    requires 0 < n < 32
  {
    r << n == (x >> n) << n && r >> (32 - n) == (x << (32 - n)) >> (32 - n)
  }

  lemma RotatesBy2(x: bv32)
    ensures Rotates(x, Rotr(x, 2), 2)
  {
  }

  lemma RotatesBy6(x: bv32)
    ensures Rotates(x, Rotr(x, 6), 6)
  {
  }

  lemma RotatesBy7(x: bv32)
    ensures Rotates(x, Rotr(x, 7), 7)
  {
  }

  lemma RotatesBy11(x: bv32)
    ensures Rotates(x, Rotr(x, 11), 11)
  {
  }

  lemma RotatesBy13(x: bv32)
    ensures Rotates(x, Rotr(x, 13), 13)
  {
  }

  lemma RotatesBy17(x: bv32)
    ensures Rotates(x, Rotr(x, 17), 17)
  {
  }

  lemma RotatesBy18(x: bv32)
    ensures Rotates(x, Rotr(x, 18), 18)
  {
  }

  lemma RotatesBy19(x: bv32)
    ensures Rotates(x, Rotr(x, 19), 19)
  {
  }

  lemma RotatesBy22(x: bv32)
    ensures Rotates(x, Rotr(x, 22), 22)
  {
  }

  lemma RotatesBy25(x: bv32)
    ensures Rotates(x, Rotr(x, 25), 25)
  {
  }

  /** All the rotations that the sums use. */
  lemma RotrRotates(x: bv32)
    ensures Rotates(x, Rotr(x, 2), 2)
    ensures Rotates(x, Rotr(x, 6), 6)
    ensures Rotates(x, Rotr(x, 7), 7)
    ensures Rotates(x, Rotr(x, 11), 11)
    ensures Rotates(x, Rotr(x, 13), 13)
    ensures Rotates(x, Rotr(x, 17), 17)
    ensures Rotates(x, Rotr(x, 18), 18)
    ensures Rotates(x, Rotr(x, 19), 19)
    ensures Rotates(x, Rotr(x, 22), 22)
    ensures Rotates(x, Rotr(x, 25), 25)
  {
    hide Rotates, Rotr;
    RotatesBy2(x);
    RotatesBy6(x);
    RotatesBy7(x);
    RotatesBy11(x);
    RotatesBy13(x);
    RotatesBy17(x);
    RotatesBy18(x);
    RotatesBy19(x);
    RotatesBy22(x);
    RotatesBy25(x);
  }

  /** What the four sums do with single bits: rotations by 2, 13, 22 and by 6, 11, 25; by 7,
      18 with a shift by 3 and by 17, 19 with a shift by 10. */
  lemma SumsOfOneBit()
    ensures BigSigma0(1) == (1 << 30) ^ (1 << 19) ^ (1 << 10)
    ensures BigSigma1(1) == (1 << 26) ^ (1 << 21) ^ (1 << 7)
    ensures SmallSigma0(1) == (1 << 25) ^ (1 << 14) && SmallSigma0(8) == (1 << 28) ^ (1 << 17) ^ 1
    ensures SmallSigma1(1) == (1 << 15) ^ (1 << 13) && SmallSigma1(0x400) == (1 << 25) ^ (1 << 23) ^ 1
  {
  }
}
