/** Known answers of the two hashes, computed from their definitions. */
module KnownAnswers {
  import opened ByteBits
  import opened Bytes
  import opened Iteration
  import opened CrcBits
  import opened Sha256
  import opened Sha256Words

  // ---- CRC-32C of "123456789" ----

  function EightSteps(c: bv32): bv32 { Step(Step(Step(Step(Step(Step(Step(Step(c)))))))) }

  lemma StepsIterate(c: bv32)
    ensures Iterate(Step, 8, c) == EightSteps(c)
  {
    hide Step;
  }

  lemma AfterByte(c: bv32, b: byte, rest: seq<byte>, next: bv32)
    requires EightSteps(Xor(c, Widen(b))) == next
    ensures Divide(c, [b] + rest) == Divide(next, rest)
  {
    hide EightSteps, Step, Xor;
    FeedByte(c, b);
    StepsIterate(Xor(c, Widen(b)));
    assert ([b] + rest)[1..] == rest;
  }

  lemma NineBytes()
    ensures EightSteps(Xor(0xffffffff, Widen(0x31))) == 0x6f0a661c
    ensures EightSteps(Xor(0x6f0a661c, Widen(0x32))) == 0x8caa3b9f
    ensures EightSteps(Xor(0x8caa3b9f, Widen(0x33))) == 0xef84d04d
    ensures EightSteps(Xor(0xef84d04d, Widen(0x34))) == 0x09c50b11
    ensures EightSteps(Xor(0x09c50b11, Widen(0x35))) == 0xe72edcca
    ensures EightSteps(Xor(0xe72edcca, Widen(0x36))) == 0xbeca8e79
    ensures EightSteps(Xor(0xbeca8e79, Widen(0x37))) == 0xedbd6815
    ensures EightSteps(Xor(0xedbd6815, Widen(0x38))) == 0x9f787f65
    ensures EightSteps(Xor(0x9f787f65, Widen(0x39))) == 0x1cf96d7c
  {}

  /** The check value of the polynomial. */
  lemma CrcCheckValue()
    ensures Crc(0, [0x31, 0x32, 0x33, 0x34, 0x35, 0x36, 0x37, 0x38, 0x39]) == 0xe3069283
  {
    hide EightSteps, Step, Xor, Divide;
    NineBytes();
    assert [0x31] + [0x32, 0x33, 0x34, 0x35, 0x36, 0x37, 0x38, 0x39] == [0x31, 0x32, 0x33, 0x34, 0x35, 0x36, 0x37, 0x38, 0x39];
    AfterByte(0xffffffff, 0x31, [0x32, 0x33, 0x34, 0x35, 0x36, 0x37, 0x38, 0x39], 0x6f0a661c);
    assert [0x32] + [0x33, 0x34, 0x35, 0x36, 0x37, 0x38, 0x39] == [0x32, 0x33, 0x34, 0x35, 0x36, 0x37, 0x38, 0x39];
    AfterByte(0x6f0a661c, 0x32, [0x33, 0x34, 0x35, 0x36, 0x37, 0x38, 0x39], 0x8caa3b9f);
    assert [0x33] + [0x34, 0x35, 0x36, 0x37, 0x38, 0x39] == [0x33, 0x34, 0x35, 0x36, 0x37, 0x38, 0x39];
    AfterByte(0x8caa3b9f, 0x33, [0x34, 0x35, 0x36, 0x37, 0x38, 0x39], 0xef84d04d);
    assert [0x34] + [0x35, 0x36, 0x37, 0x38, 0x39] == [0x34, 0x35, 0x36, 0x37, 0x38, 0x39];
    AfterByte(0xef84d04d, 0x34, [0x35, 0x36, 0x37, 0x38, 0x39], 0x09c50b11);
    assert [0x35] + [0x36, 0x37, 0x38, 0x39] == [0x35, 0x36, 0x37, 0x38, 0x39];
    AfterByte(0x09c50b11, 0x35, [0x36, 0x37, 0x38, 0x39], 0xe72edcca);
    assert [0x36] + [0x37, 0x38, 0x39] == [0x36, 0x37, 0x38, 0x39];
    AfterByte(0xe72edcca, 0x36, [0x37, 0x38, 0x39], 0xbeca8e79);
    assert [0x37] + [0x38, 0x39] == [0x37, 0x38, 0x39];
    AfterByte(0xbeca8e79, 0x37, [0x38, 0x39], 0xedbd6815);
    assert [0x38] + [0x39] == [0x38, 0x39];
    AfterByte(0xedbd6815, 0x38, [0x39], 0x9f787f65);
    assert [0x39] + [] == [0x39];
    AfterByte(0x9f787f65, 0x39, [], 0x1cf96d7c);
    DividedOut(0x1cf96d7c);
  }

  lemma DividedOut(c: bv32)
    ensures Divide(c, []) == c
  {}

  // ---- SHA-256 of "abc" ----

  /** The one padded block of the message. */
  const ABC: seq<byte> := [0x61, 0x62, 0x63, 0x80] + Sha256.Zeros(59) + [24]

  predicate Word(t: nat, w: bv32) { |ABC| == 64 && ScheduleWord(SHA, ABC, t) == w }

  predicate After(t: nat, v: Eight<bv32>) { |ABC| == 64 && t <= |SHA.k| && Rounds(SHA, ABC, START, t) == v }

  predicate Key(t: nat, k: bv32) { t < |K| && K[t] == k }

  function Mixed(a: bv32, b: bv32, c: bv32, d: bv32): bv32 { SHA.add(SHA.add(SHA.add(a, SHA.smallSigma0(b)), c), SHA.smallSigma1(d)) }

  lemma NextWord(t: nat, a: bv32, b: bv32, c: bv32, d: bv32, w: bv32)
    requires t >= 16 && Word(t - 16, a) && Word(t - 15, b) && Word(t - 7, c) && Word(t - 2, d) && Mixed(a, b, c, d) == w
    ensures Word(t, w)
  {}

  lemma NextRound(t: nat, v: Eight<bv32>, k: bv32, w: bv32, next: Eight<bv32>)
    requires After(t, v) && Word(t, w) && Key(t, k) && Round(SHA, v, k, w) == next
    ensures After(t + 1, next)
  {
    hide ScheduleWord, Round;
  }

  lemma FirstWords()
    ensures Word(0, 0x61626380) && (forall t :: 1 <= t <= 14 ==> Word(t, 0)) && Word(15, 24)
  {
    assert FromBytes(0x61, 0x62, 0x63, 0x80) == 0x61626380;
    assert FromBytes(0, 0, 0, 0) == 0;
    assert FromBytes(0, 0, 0, 24) == 24;
    assert ABC[60] == 0 && ABC[61] == 0 && ABC[62] == 0 && ABC[63] == 24;
    forall t | 1 <= t <= 14 ensures Word(t, 0) {
      assert ABC[4 * t] == 0 && ABC[4 * t + 1] == 0 && ABC[4 * t + 2] == 0 && ABC[4 * t + 3] == 0;
    }
  }

  lemma WordsTo20()
    ensures Word(16, 0x61626380) && Word(17, 0x000f0000) && Word(18, 0x7da86405) && Word(19, 0x600003c6)
  {
    hide Word, ScheduleWord;
    FirstWords();
    NextWord(16, 0x61626380, 0x00000000, 0x00000000, 0x00000000, 0x61626380);
    NextWord(17, 0x00000000, 0x00000000, 0x00000000, 0x00000018, 0x000f0000);
    NextWord(18, 0x00000000, 0x00000000, 0x00000000, 0x61626380, 0x7da86405);
    NextWord(19, 0x00000000, 0x00000000, 0x00000000, 0x000f0000, 0x600003c6);
  }

  lemma WordsTo24()
    ensures Word(20, 0x3e9d7b78) && Word(21, 0x0183fc00) && Word(22, 0x12dcbfdb) && Word(23, 0xe2e2c38e)
  {
    hide Word, ScheduleWord;
    FirstWords();
    WordsTo20();
    NextWord(20, 0x00000000, 0x00000000, 0x00000000, 0x7da86405, 0x3e9d7b78);
    NextWord(21, 0x00000000, 0x00000000, 0x00000000, 0x600003c6, 0x0183fc00);
    NextWord(22, 0x00000000, 0x00000000, 0x00000018, 0x3e9d7b78, 0x12dcbfdb);
    NextWord(23, 0x00000000, 0x00000000, 0x61626380, 0x0183fc00, 0xe2e2c38e);
  }

  lemma WordsTo28()
    ensures Word(24, 0xc8215c1a) && Word(25, 0xb73679a2) && Word(26, 0xe5bc3909) && Word(27, 0x32663c5b)
  {
    hide Word, ScheduleWord;
    FirstWords();
    WordsTo20();
    WordsTo24();
    NextWord(24, 0x00000000, 0x00000000, 0x000f0000, 0x12dcbfdb, 0xc8215c1a);
    NextWord(25, 0x00000000, 0x00000000, 0x7da86405, 0xe2e2c38e, 0xb73679a2);
    NextWord(26, 0x00000000, 0x00000000, 0x600003c6, 0xc8215c1a, 0xe5bc3909);
    NextWord(27, 0x00000000, 0x00000000, 0x3e9d7b78, 0xb73679a2, 0x32663c5b);
  }

  lemma WordsTo32()
    ensures Word(28, 0x9d209d67) && Word(29, 0xec8726cb) && Word(30, 0x702138a4) && Word(31, 0xd3b7973b)
  {
    hide Word, ScheduleWord;
    FirstWords();
    WordsTo20();
    WordsTo24();
    WordsTo28();
    NextWord(28, 0x00000000, 0x00000000, 0x0183fc00, 0xe5bc3909, 0x9d209d67);
    NextWord(29, 0x00000000, 0x00000000, 0x12dcbfdb, 0x32663c5b, 0xec8726cb);
    NextWord(30, 0x00000000, 0x00000018, 0xe2e2c38e, 0x9d209d67, 0x702138a4);
    NextWord(31, 0x00000018, 0x61626380, 0xc8215c1a, 0xec8726cb, 0xd3b7973b);
  }

  lemma WordsTo36()
    ensures Word(32, 0x93f5997f) && Word(33, 0x3b68ba73) && Word(34, 0xaff4ffc1) && Word(35, 0xf10a5c62)
  {
    hide Word, ScheduleWord;
    WordsTo20();
    WordsTo24();
    WordsTo28();
    WordsTo32();
    NextWord(32, 0x61626380, 0x000f0000, 0xb73679a2, 0x702138a4, 0x93f5997f);
    NextWord(33, 0x000f0000, 0x7da86405, 0xe5bc3909, 0xd3b7973b, 0x3b68ba73);
    NextWord(34, 0x7da86405, 0x600003c6, 0x32663c5b, 0x93f5997f, 0xaff4ffc1);
    NextWord(35, 0x600003c6, 0x3e9d7b78, 0x9d209d67, 0x3b68ba73, 0xf10a5c62);
  }

  lemma WordsTo40()
    ensures Word(36, 0x0a8b3996) && Word(37, 0x72af830a) && Word(38, 0x9409e33e) && Word(39, 0x24641522)
  {
    hide Word, ScheduleWord;
    WordsTo24();
    WordsTo28();
    WordsTo32();
    WordsTo36();
    NextWord(36, 0x3e9d7b78, 0x0183fc00, 0xec8726cb, 0xaff4ffc1, 0x0a8b3996);
    NextWord(37, 0x0183fc00, 0x12dcbfdb, 0x702138a4, 0xf10a5c62, 0x72af830a);
    NextWord(38, 0x12dcbfdb, 0xe2e2c38e, 0xd3b7973b, 0x0a8b3996, 0x9409e33e);
    NextWord(39, 0xe2e2c38e, 0xc8215c1a, 0x93f5997f, 0x72af830a, 0x24641522);
  }

  lemma WordsTo44()
    ensures Word(40, 0x9f47bf94) && Word(41, 0xf0a64f5a) && Word(42, 0x3e246a79) && Word(43, 0x27333ba3)
  {
    hide Word, ScheduleWord;
    WordsTo28();
    WordsTo32();
    WordsTo36();
    WordsTo40();
    NextWord(40, 0xc8215c1a, 0xb73679a2, 0x3b68ba73, 0x9409e33e, 0x9f47bf94);
    NextWord(41, 0xb73679a2, 0xe5bc3909, 0xaff4ffc1, 0x24641522, 0xf0a64f5a);
    NextWord(42, 0xe5bc3909, 0x32663c5b, 0xf10a5c62, 0x9f47bf94, 0x3e246a79);
    NextWord(43, 0x32663c5b, 0x9d209d67, 0x0a8b3996, 0xf0a64f5a, 0x27333ba3);
  }

  lemma WordsTo48()
    ensures Word(44, 0x0c4763f2) && Word(45, 0x840abf27) && Word(46, 0x7a290d5d) && Word(47, 0x065c43da)
  {
    hide Word, ScheduleWord;
    WordsTo32();
    WordsTo36();
    WordsTo40();
    WordsTo44();
    NextWord(44, 0x9d209d67, 0xec8726cb, 0x72af830a, 0x3e246a79, 0x0c4763f2);
    NextWord(45, 0xec8726cb, 0x702138a4, 0x9409e33e, 0x27333ba3, 0x840abf27);
    NextWord(46, 0x702138a4, 0xd3b7973b, 0x24641522, 0x0c4763f2, 0x7a290d5d);
    NextWord(47, 0xd3b7973b, 0x93f5997f, 0x9f47bf94, 0x840abf27, 0x065c43da);
  }

  lemma WordsTo52()
    ensures Word(48, 0xfb3e89cb) && Word(49, 0xcc7617db) && Word(50, 0xb9e66c34) && Word(51, 0xa9993667)
  {
    hide Word, ScheduleWord;
    WordsTo36();
    WordsTo40();
    WordsTo44();
    WordsTo48();
    NextWord(48, 0x93f5997f, 0x3b68ba73, 0xf0a64f5a, 0x7a290d5d, 0xfb3e89cb);
    NextWord(49, 0x3b68ba73, 0xaff4ffc1, 0x3e246a79, 0x065c43da, 0xcc7617db);
    NextWord(50, 0xaff4ffc1, 0xf10a5c62, 0x27333ba3, 0xfb3e89cb, 0xb9e66c34);
    NextWord(51, 0xf10a5c62, 0x0a8b3996, 0x0c4763f2, 0xcc7617db, 0xa9993667);
  }

  lemma WordsTo56()
    ensures Word(52, 0x84badedd) && Word(53, 0xc21462bc) && Word(54, 0x1487472c) && Word(55, 0xb20f7a99)
  {
    hide Word, ScheduleWord;
    WordsTo40();
    WordsTo44();
    WordsTo48();
    WordsTo52();
    NextWord(52, 0x0a8b3996, 0x72af830a, 0x840abf27, 0xb9e66c34, 0x84badedd);
    NextWord(53, 0x72af830a, 0x9409e33e, 0x7a290d5d, 0xa9993667, 0xc21462bc);
    NextWord(54, 0x9409e33e, 0x24641522, 0x065c43da, 0x84badedd, 0x1487472c);
    NextWord(55, 0x24641522, 0x9f47bf94, 0xfb3e89cb, 0xc21462bc, 0xb20f7a99);
  }

  lemma WordsTo60()
    ensures Word(56, 0xef57b9cd) && Word(57, 0xebe6b238) && Word(58, 0x9fe3095e) && Word(59, 0x78bc8d4b)
  {
    hide Word, ScheduleWord;
    WordsTo44();
    WordsTo48();
    WordsTo52();
    WordsTo56();
    NextWord(56, 0x9f47bf94, 0xf0a64f5a, 0xcc7617db, 0x1487472c, 0xef57b9cd);
    NextWord(57, 0xf0a64f5a, 0x3e246a79, 0xb9e66c34, 0xb20f7a99, 0xebe6b238);
    NextWord(58, 0x3e246a79, 0x27333ba3, 0xa9993667, 0xef57b9cd, 0x9fe3095e);
    NextWord(59, 0x27333ba3, 0x0c4763f2, 0x84badedd, 0xebe6b238, 0x78bc8d4b);
  }

  lemma WordsTo64()
    ensures Word(60, 0xa43fcf15) && Word(61, 0x668b2ff8) && Word(62, 0xeeaba2cc) && Word(63, 0x12b1edeb)
  {
    hide Word, ScheduleWord;
    WordsTo48();
    WordsTo52();
    WordsTo56();
    WordsTo60();
    NextWord(60, 0x0c4763f2, 0x840abf27, 0xc21462bc, 0x9fe3095e, 0xa43fcf15);
    NextWord(61, 0x840abf27, 0x7a290d5d, 0x1487472c, 0x78bc8d4b, 0x668b2ff8);
    NextWord(62, 0x7a290d5d, 0x065c43da, 0xb20f7a99, 0xa43fcf15, 0xeeaba2cc);
    NextWord(63, 0x065c43da, 0xfb3e89cb, 0xef57b9cd, 0x668b2ff8, 0x12b1edeb);
  }

  lemma Keys0()
    ensures Key(0, 0x428a2f98) && Key(1, 0x71374491) && Key(2, 0xb5c0fbcf) && Key(3, 0xe9b5dba5)
    ensures Key(4, 0x3956c25b) && Key(5, 0x59f111f1) && Key(6, 0x923f82a4) && Key(7, 0xab1c5ed5)
  {
    assert |K| == 64 && K[0..8] == K_0;
    assert K[0] == K[0..8][0] && K[1] == K[0..8][1] && K[2] == K[0..8][2] && K[3] == K[0..8][3] && K[4] == K[0..8][4] && K[5] == K[0..8][5] && K[6] == K[0..8][6] && K[7] == K[0..8][7];
  }

  lemma Keys1()
    ensures Key(8, 0xd807aa98) && Key(9, 0x12835b01) && Key(10, 0x243185be) && Key(11, 0x550c7dc3)
    ensures Key(12, 0x72be5d74) && Key(13, 0x80deb1fe) && Key(14, 0x9bdc06a7) && Key(15, 0xc19bf174)
  {
    assert |K| == 64 && K[8..16] == K_1;
    assert K[8] == K[8..16][0] && K[9] == K[8..16][1] && K[10] == K[8..16][2] && K[11] == K[8..16][3] && K[12] == K[8..16][4] && K[13] == K[8..16][5] && K[14] == K[8..16][6] && K[15] == K[8..16][7];
  }

  lemma Keys2()
    ensures Key(16, 0xe49b69c1) && Key(17, 0xefbe4786) && Key(18, 0x0fc19dc6) && Key(19, 0x240ca1cc)
    ensures Key(20, 0x2de92c6f) && Key(21, 0x4a7484aa) && Key(22, 0x5cb0a9dc) && Key(23, 0x76f988da)
  {
    assert |K| == 64 && K[16..24] == K_2;
    assert K[16] == K[16..24][0] && K[17] == K[16..24][1] && K[18] == K[16..24][2] && K[19] == K[16..24][3] && K[20] == K[16..24][4] && K[21] == K[16..24][5] && K[22] == K[16..24][6] && K[23] == K[16..24][7];
  }

  lemma Keys3()
    ensures Key(24, 0x983e5152) && Key(25, 0xa831c66d) && Key(26, 0xb00327c8) && Key(27, 0xbf597fc7)
    ensures Key(28, 0xc6e00bf3) && Key(29, 0xd5a79147) && Key(30, 0x06ca6351) && Key(31, 0x14292967)
  {
    assert |K| == 64 && K[24..32] == K_3;
    assert K[24] == K[24..32][0] && K[25] == K[24..32][1] && K[26] == K[24..32][2] && K[27] == K[24..32][3] && K[28] == K[24..32][4] && K[29] == K[24..32][5] && K[30] == K[24..32][6] && K[31] == K[24..32][7];
  }

  lemma Keys4()
    ensures Key(32, 0x27b70a85) && Key(33, 0x2e1b2138) && Key(34, 0x4d2c6dfc) && Key(35, 0x53380d13)
    ensures Key(36, 0x650a7354) && Key(37, 0x766a0abb) && Key(38, 0x81c2c92e) && Key(39, 0x92722c85)
  {
    assert |K| == 64 && K[32..40] == K_4;
    assert K[32] == K[32..40][0] && K[33] == K[32..40][1] && K[34] == K[32..40][2] && K[35] == K[32..40][3] && K[36] == K[32..40][4] && K[37] == K[32..40][5] && K[38] == K[32..40][6] && K[39] == K[32..40][7];
  }

  lemma Keys5()
    ensures Key(40, 0xa2bfe8a1) && Key(41, 0xa81a664b) && Key(42, 0xc24b8b70) && Key(43, 0xc76c51a3)
    ensures Key(44, 0xd192e819) && Key(45, 0xd6990624) && Key(46, 0xf40e3585) && Key(47, 0x106aa070)
  {
    assert |K| == 64 && K[40..48] == K_5;
    assert K[40] == K[40..48][0] && K[41] == K[40..48][1] && K[42] == K[40..48][2] && K[43] == K[40..48][3] && K[44] == K[40..48][4] && K[45] == K[40..48][5] && K[46] == K[40..48][6] && K[47] == K[40..48][7];
  }

  lemma Keys6()
    ensures Key(48, 0x19a4c116) && Key(49, 0x1e376c08) && Key(50, 0x2748774c) && Key(51, 0x34b0bcb5)
    ensures Key(52, 0x391c0cb3) && Key(53, 0x4ed8aa4a) && Key(54, 0x5b9cca4f) && Key(55, 0x682e6ff3)
  {
    assert |K| == 64 && K[48..56] == K_6;
    assert K[48] == K[48..56][0] && K[49] == K[48..56][1] && K[50] == K[48..56][2] && K[51] == K[48..56][3] && K[52] == K[48..56][4] && K[53] == K[48..56][5] && K[54] == K[48..56][6] && K[55] == K[48..56][7];
  }

  lemma Keys7()
    ensures Key(56, 0x748f82ee) && Key(57, 0x78a5636f) && Key(58, 0x84c87814) && Key(59, 0x8cc70208)
    ensures Key(60, 0x90befffa) && Key(61, 0xa4506ceb) && Key(62, 0xbef9a3f7) && Key(63, 0xc67178f2)
  {
    assert |K| == 64 && K[56..64] == K_7;
    assert K[56] == K[56..64][0] && K[57] == K[56..64][1] && K[58] == K[56..64][2] && K[59] == K[56..64][3] && K[60] == K[56..64][4] && K[61] == K[56..64][5] && K[62] == K[56..64][6] && K[63] == K[56..64][7];
  }

  lemma NoRound()
    ensures After(0, S_0)
  {}

  // The working variables before each round, and after the last.
  const S_0: Eight<bv32> := Eight(0x6a09e667, 0xbb67ae85, 0x3c6ef372, 0xa54ff53a, 0x510e527f, 0x9b05688c, 0x1f83d9ab, 0x5be0cd19)
  const S_1: Eight<bv32> := Eight(0x5d6aebcd, 0x6a09e667, 0xbb67ae85, 0x3c6ef372, 0xfa2a4622, 0x510e527f, 0x9b05688c, 0x1f83d9ab)
  const S_2: Eight<bv32> := Eight(0x5a6ad9ad, 0x5d6aebcd, 0x6a09e667, 0xbb67ae85, 0x78ce7989, 0xfa2a4622, 0x510e527f, 0x9b05688c)
  const S_3: Eight<bv32> := Eight(0xc8c347a7, 0x5a6ad9ad, 0x5d6aebcd, 0x6a09e667, 0xf92939eb, 0x78ce7989, 0xfa2a4622, 0x510e527f)
  const S_4: Eight<bv32> := Eight(0xd550f666, 0xc8c347a7, 0x5a6ad9ad, 0x5d6aebcd, 0x24e00850, 0xf92939eb, 0x78ce7989, 0xfa2a4622)
  const S_5: Eight<bv32> := Eight(0x04409a6a, 0xd550f666, 0xc8c347a7, 0x5a6ad9ad, 0x43ada245, 0x24e00850, 0xf92939eb, 0x78ce7989)
  const S_6: Eight<bv32> := Eight(0x2b4209f5, 0x04409a6a, 0xd550f666, 0xc8c347a7, 0x714260ad, 0x43ada245, 0x24e00850, 0xf92939eb)
  const S_7: Eight<bv32> := Eight(0xe5030380, 0x2b4209f5, 0x04409a6a, 0xd550f666, 0x9b27a401, 0x714260ad, 0x43ada245, 0x24e00850)
  const S_8: Eight<bv32> := Eight(0x85a07b5f, 0xe5030380, 0x2b4209f5, 0x04409a6a, 0x0c657a79, 0x9b27a401, 0x714260ad, 0x43ada245)
  const S_9: Eight<bv32> := Eight(0x8e04ecb9, 0x85a07b5f, 0xe5030380, 0x2b4209f5, 0x32ca2d8c, 0x0c657a79, 0x9b27a401, 0x714260ad)
  const S_10: Eight<bv32> := Eight(0x8c87346b, 0x8e04ecb9, 0x85a07b5f, 0xe5030380, 0x1cc92596, 0x32ca2d8c, 0x0c657a79, 0x9b27a401)
  const S_11: Eight<bv32> := Eight(0x4798a3f4, 0x8c87346b, 0x8e04ecb9, 0x85a07b5f, 0x436b23e8, 0x1cc92596, 0x32ca2d8c, 0x0c657a79)
  const S_12: Eight<bv32> := Eight(0xf71fc5a9, 0x4798a3f4, 0x8c87346b, 0x8e04ecb9, 0x816fd6e9, 0x436b23e8, 0x1cc92596, 0x32ca2d8c)
  const S_13: Eight<bv32> := Eight(0x87912990, 0xf71fc5a9, 0x4798a3f4, 0x8c87346b, 0x1e578218, 0x816fd6e9, 0x436b23e8, 0x1cc92596)
  const S_14: Eight<bv32> := Eight(0xd932eb16, 0x87912990, 0xf71fc5a9, 0x4798a3f4, 0x745a48de, 0x1e578218, 0x816fd6e9, 0x436b23e8)
  const S_15: Eight<bv32> := Eight(0xc0645fde, 0xd932eb16, 0x87912990, 0xf71fc5a9, 0x0b92f20c, 0x745a48de, 0x1e578218, 0x816fd6e9)
  const S_16: Eight<bv32> := Eight(0xb0fa238e, 0xc0645fde, 0xd932eb16, 0x87912990, 0x07590dcd, 0x0b92f20c, 0x745a48de, 0x1e578218)
  const S_17: Eight<bv32> := Eight(0x21da9a9b, 0xb0fa238e, 0xc0645fde, 0xd932eb16, 0x8034229c, 0x07590dcd, 0x0b92f20c, 0x745a48de)
  const S_18: Eight<bv32> := Eight(0xc2fbd9d1, 0x21da9a9b, 0xb0fa238e, 0xc0645fde, 0x846ee454, 0x8034229c, 0x07590dcd, 0x0b92f20c)
  const S_19: Eight<bv32> := Eight(0xfe777bbf, 0xc2fbd9d1, 0x21da9a9b, 0xb0fa238e, 0xcc899961, 0x846ee454, 0x8034229c, 0x07590dcd)
  const S_20: Eight<bv32> := Eight(0xe1f20c33, 0xfe777bbf, 0xc2fbd9d1, 0x21da9a9b, 0xb0638179, 0xcc899961, 0x846ee454, 0x8034229c)
  const S_21: Eight<bv32> := Eight(0x9dc68b63, 0xe1f20c33, 0xfe777bbf, 0xc2fbd9d1, 0x8ada8930, 0xb0638179, 0xcc899961, 0x846ee454)
  const S_22: Eight<bv32> := Eight(0xc2606d6d, 0x9dc68b63, 0xe1f20c33, 0xfe777bbf, 0xe1257970, 0x8ada8930, 0xb0638179, 0xcc899961)
  const S_23: Eight<bv32> := Eight(0xa7a3623f, 0xc2606d6d, 0x9dc68b63, 0xe1f20c33, 0x49f5114a, 0xe1257970, 0x8ada8930, 0xb0638179)
  const S_24: Eight<bv32> := Eight(0xc5d53d8d, 0xa7a3623f, 0xc2606d6d, 0x9dc68b63, 0xaa47c347, 0x49f5114a, 0xe1257970, 0x8ada8930)
  const S_25: Eight<bv32> := Eight(0x1c2c2838, 0xc5d53d8d, 0xa7a3623f, 0xc2606d6d, 0x2823ef91, 0xaa47c347, 0x49f5114a, 0xe1257970)
  const S_26: Eight<bv32> := Eight(0xcde8037d, 0x1c2c2838, 0xc5d53d8d, 0xa7a3623f, 0x14383d8e, 0x2823ef91, 0xaa47c347, 0x49f5114a)
  const S_27: Eight<bv32> := Eight(0xb62ec4bc, 0xcde8037d, 0x1c2c2838, 0xc5d53d8d, 0xc74c6516, 0x14383d8e, 0x2823ef91, 0xaa47c347)
  const S_28: Eight<bv32> := Eight(0x77d37528, 0xb62ec4bc, 0xcde8037d, 0x1c2c2838, 0xedffbff8, 0xc74c6516, 0x14383d8e, 0x2823ef91)
  const S_29: Eight<bv32> := Eight(0x363482c9, 0x77d37528, 0xb62ec4bc, 0xcde8037d, 0x6112a3b7, 0xedffbff8, 0xc74c6516, 0x14383d8e)
  const S_30: Eight<bv32> := Eight(0xa0060b30, 0x363482c9, 0x77d37528, 0xb62ec4bc, 0xade79437, 0x6112a3b7, 0xedffbff8, 0xc74c6516)
  const S_31: Eight<bv32> := Eight(0xea992a22, 0xa0060b30, 0x363482c9, 0x77d37528, 0x0109ab3a, 0xade79437, 0x6112a3b7, 0xedffbff8)
  const S_32: Eight<bv32> := Eight(0x73b33bf5, 0xea992a22, 0xa0060b30, 0x363482c9, 0xba591112, 0x0109ab3a, 0xade79437, 0x6112a3b7)
  const S_33: Eight<bv32> := Eight(0x98e12507, 0x73b33bf5, 0xea992a22, 0xa0060b30, 0x9cd9f5f6, 0xba591112, 0x0109ab3a, 0xade79437)
  const S_34: Eight<bv32> := Eight(0xfe604df5, 0x98e12507, 0x73b33bf5, 0xea992a22, 0x59249dd3, 0x9cd9f5f6, 0xba591112, 0x0109ab3a)
  const S_35: Eight<bv32> := Eight(0xa9a7738c, 0xfe604df5, 0x98e12507, 0x73b33bf5, 0x085f3833, 0x59249dd3, 0x9cd9f5f6, 0xba591112)
  const S_36: Eight<bv32> := Eight(0x65a0cfe4, 0xa9a7738c, 0xfe604df5, 0x98e12507, 0xf4b002d6, 0x085f3833, 0x59249dd3, 0x9cd9f5f6)
  const S_37: Eight<bv32> := Eight(0x41a65cb1, 0x65a0cfe4, 0xa9a7738c, 0xfe604df5, 0x0772a26b, 0xf4b002d6, 0x085f3833, 0x59249dd3)
  const S_38: Eight<bv32> := Eight(0x34df1604, 0x41a65cb1, 0x65a0cfe4, 0xa9a7738c, 0xa507a53d, 0x0772a26b, 0xf4b002d6, 0x085f3833)
  const S_39: Eight<bv32> := Eight(0x6dc57a8a, 0x34df1604, 0x41a65cb1, 0x65a0cfe4, 0xf0781bc8, 0xa507a53d, 0x0772a26b, 0xf4b002d6)
  const S_40: Eight<bv32> := Eight(0x79ea687a, 0x6dc57a8a, 0x34df1604, 0x41a65cb1, 0x1efbc0a0, 0xf0781bc8, 0xa507a53d, 0x0772a26b)
  const S_41: Eight<bv32> := Eight(0xd6670766, 0x79ea687a, 0x6dc57a8a, 0x34df1604, 0x26352d63, 0x1efbc0a0, 0xf0781bc8, 0xa507a53d)
  const S_42: Eight<bv32> := Eight(0xdf46652f, 0xd6670766, 0x79ea687a, 0x6dc57a8a, 0x838b2711, 0x26352d63, 0x1efbc0a0, 0xf0781bc8)
  const S_43: Eight<bv32> := Eight(0x17aa0dfe, 0xdf46652f, 0xd6670766, 0x79ea687a, 0xdecd4715, 0x838b2711, 0x26352d63, 0x1efbc0a0)
  const S_44: Eight<bv32> := Eight(0x9d4baf93, 0x17aa0dfe, 0xdf46652f, 0xd6670766, 0xfda24c2e, 0xdecd4715, 0x838b2711, 0x26352d63)
  const S_45: Eight<bv32> := Eight(0x26628815, 0x9d4baf93, 0x17aa0dfe, 0xdf46652f, 0xa80f11f0, 0xfda24c2e, 0xdecd4715, 0x838b2711)
  const S_46: Eight<bv32> := Eight(0x72ab4b91, 0x26628815, 0x9d4baf93, 0x17aa0dfe, 0xb7755da1, 0xa80f11f0, 0xfda24c2e, 0xdecd4715)
  const S_47: Eight<bv32> := Eight(0xa14c14b0, 0x72ab4b91, 0x26628815, 0x9d4baf93, 0xd57b94a9, 0xb7755da1, 0xa80f11f0, 0xfda24c2e)
  const S_48: Eight<bv32> := Eight(0x4172328d, 0xa14c14b0, 0x72ab4b91, 0x26628815, 0xfecf0bc6, 0xd57b94a9, 0xb7755da1, 0xa80f11f0)
  const S_49: Eight<bv32> := Eight(0x05757ceb, 0x4172328d, 0xa14c14b0, 0x72ab4b91, 0xbd714038, 0xfecf0bc6, 0xd57b94a9, 0xb7755da1)
  const S_50: Eight<bv32> := Eight(0xf11bfaa8, 0x05757ceb, 0x4172328d, 0xa14c14b0, 0x6e5c390c, 0xbd714038, 0xfecf0bc6, 0xd57b94a9)
  const S_51: Eight<bv32> := Eight(0x7a0508a1, 0xf11bfaa8, 0x05757ceb, 0x4172328d, 0x52f1ccf7, 0x6e5c390c, 0xbd714038, 0xfecf0bc6)
  const S_52: Eight<bv32> := Eight(0x886e7a22, 0x7a0508a1, 0xf11bfaa8, 0x05757ceb, 0x49231c1e, 0x52f1ccf7, 0x6e5c390c, 0xbd714038)
  const S_53: Eight<bv32> := Eight(0x101fd28f, 0x886e7a22, 0x7a0508a1, 0xf11bfaa8, 0x529e7d00, 0x49231c1e, 0x52f1ccf7, 0x6e5c390c)
  const S_54: Eight<bv32> := Eight(0xf5702fdb, 0x101fd28f, 0x886e7a22, 0x7a0508a1, 0x9f4787c3, 0x529e7d00, 0x49231c1e, 0x52f1ccf7)
  const S_55: Eight<bv32> := Eight(0x3ec45cdb, 0xf5702fdb, 0x101fd28f, 0x886e7a22, 0xe50e1b4f, 0x9f4787c3, 0x529e7d00, 0x49231c1e)
  const S_56: Eight<bv32> := Eight(0x38cc9913, 0x3ec45cdb, 0xf5702fdb, 0x101fd28f, 0x54cb266b, 0xe50e1b4f, 0x9f4787c3, 0x529e7d00)
  const S_57: Eight<bv32> := Eight(0xfcd1887b, 0x38cc9913, 0x3ec45cdb, 0xf5702fdb, 0x9b5e906c, 0x54cb266b, 0xe50e1b4f, 0x9f4787c3)
  const S_58: Eight<bv32> := Eight(0xc062d46f, 0xfcd1887b, 0x38cc9913, 0x3ec45cdb, 0x7e44008e, 0x9b5e906c, 0x54cb266b, 0xe50e1b4f)
  const S_59: Eight<bv32> := Eight(0xffb70472, 0xc062d46f, 0xfcd1887b, 0x38cc9913, 0x6d83bfc6, 0x7e44008e, 0x9b5e906c, 0x54cb266b)
  const S_60: Eight<bv32> := Eight(0xb6ae8fff, 0xffb70472, 0xc062d46f, 0xfcd1887b, 0xb21bad3d, 0x6d83bfc6, 0x7e44008e, 0x9b5e906c)
  const S_61: Eight<bv32> := Eight(0xb85e2ce9, 0xb6ae8fff, 0xffb70472, 0xc062d46f, 0x961f4894, 0xb21bad3d, 0x6d83bfc6, 0x7e44008e)
  const S_62: Eight<bv32> := Eight(0x04d24d6c, 0xb85e2ce9, 0xb6ae8fff, 0xffb70472, 0x948d25b6, 0x961f4894, 0xb21bad3d, 0x6d83bfc6)
  const S_63: Eight<bv32> := Eight(0xd39a2165, 0x04d24d6c, 0xb85e2ce9, 0xb6ae8fff, 0xfb121210, 0x948d25b6, 0x961f4894, 0xb21bad3d)
  const S_64: Eight<bv32> := Eight(0x506e3058, 0xd39a2165, 0x04d24d6c, 0xb85e2ce9, 0x5ef50f24, 0xfb121210, 0x948d25b6, 0x961f4894)

  lemma Turns0()
    ensures Round(SHA, S_0, 0x428a2f98, 0x61626380) == S_1
    ensures Round(SHA, S_1, 0x71374491, 0x00000000) == S_2
    ensures Round(SHA, S_2, 0xb5c0fbcf, 0x00000000) == S_3
    ensures Round(SHA, S_3, 0xe9b5dba5, 0x00000000) == S_4
  {}

  lemma Turns4()
    ensures Round(SHA, S_4, 0x3956c25b, 0x00000000) == S_5
    ensures Round(SHA, S_5, 0x59f111f1, 0x00000000) == S_6
    ensures Round(SHA, S_6, 0x923f82a4, 0x00000000) == S_7
    ensures Round(SHA, S_7, 0xab1c5ed5, 0x00000000) == S_8
  {}

  lemma Turns8()
    ensures Round(SHA, S_8, 0xd807aa98, 0x00000000) == S_9
    ensures Round(SHA, S_9, 0x12835b01, 0x00000000) == S_10
    ensures Round(SHA, S_10, 0x243185be, 0x00000000) == S_11
    ensures Round(SHA, S_11, 0x550c7dc3, 0x00000000) == S_12
  {}

  lemma Turns12()
    ensures Round(SHA, S_12, 0x72be5d74, 0x00000000) == S_13
    ensures Round(SHA, S_13, 0x80deb1fe, 0x00000000) == S_14
    ensures Round(SHA, S_14, 0x9bdc06a7, 0x00000000) == S_15
    ensures Round(SHA, S_15, 0xc19bf174, 0x00000018) == S_16
  {}

  lemma Turns16()
    ensures Round(SHA, S_16, 0xe49b69c1, 0x61626380) == S_17
    ensures Round(SHA, S_17, 0xefbe4786, 0x000f0000) == S_18
    ensures Round(SHA, S_18, 0x0fc19dc6, 0x7da86405) == S_19
    ensures Round(SHA, S_19, 0x240ca1cc, 0x600003c6) == S_20
  {}

  lemma Turns20()
    ensures Round(SHA, S_20, 0x2de92c6f, 0x3e9d7b78) == S_21
    ensures Round(SHA, S_21, 0x4a7484aa, 0x0183fc00) == S_22
    ensures Round(SHA, S_22, 0x5cb0a9dc, 0x12dcbfdb) == S_23
    ensures Round(SHA, S_23, 0x76f988da, 0xe2e2c38e) == S_24
  {}

  lemma Turns24()
    ensures Round(SHA, S_24, 0x983e5152, 0xc8215c1a) == S_25
    ensures Round(SHA, S_25, 0xa831c66d, 0xb73679a2) == S_26
    ensures Round(SHA, S_26, 0xb00327c8, 0xe5bc3909) == S_27
    ensures Round(SHA, S_27, 0xbf597fc7, 0x32663c5b) == S_28
  {}

  lemma Turns28()
    ensures Round(SHA, S_28, 0xc6e00bf3, 0x9d209d67) == S_29
    ensures Round(SHA, S_29, 0xd5a79147, 0xec8726cb) == S_30
    ensures Round(SHA, S_30, 0x06ca6351, 0x702138a4) == S_31
    ensures Round(SHA, S_31, 0x14292967, 0xd3b7973b) == S_32
  {}

  lemma Turns32()
    ensures Round(SHA, S_32, 0x27b70a85, 0x93f5997f) == S_33
    ensures Round(SHA, S_33, 0x2e1b2138, 0x3b68ba73) == S_34
    ensures Round(SHA, S_34, 0x4d2c6dfc, 0xaff4ffc1) == S_35
    ensures Round(SHA, S_35, 0x53380d13, 0xf10a5c62) == S_36
  {}

  lemma Turns36()
    ensures Round(SHA, S_36, 0x650a7354, 0x0a8b3996) == S_37
    ensures Round(SHA, S_37, 0x766a0abb, 0x72af830a) == S_38
    ensures Round(SHA, S_38, 0x81c2c92e, 0x9409e33e) == S_39
    ensures Round(SHA, S_39, 0x92722c85, 0x24641522) == S_40
  {}

  lemma Turns40()
    ensures Round(SHA, S_40, 0xa2bfe8a1, 0x9f47bf94) == S_41
    ensures Round(SHA, S_41, 0xa81a664b, 0xf0a64f5a) == S_42
    ensures Round(SHA, S_42, 0xc24b8b70, 0x3e246a79) == S_43
    ensures Round(SHA, S_43, 0xc76c51a3, 0x27333ba3) == S_44
  {}

  lemma Turns44()
    ensures Round(SHA, S_44, 0xd192e819, 0x0c4763f2) == S_45
    ensures Round(SHA, S_45, 0xd6990624, 0x840abf27) == S_46
    ensures Round(SHA, S_46, 0xf40e3585, 0x7a290d5d) == S_47
    ensures Round(SHA, S_47, 0x106aa070, 0x065c43da) == S_48
  {}

  lemma Turns48()
    ensures Round(SHA, S_48, 0x19a4c116, 0xfb3e89cb) == S_49
    ensures Round(SHA, S_49, 0x1e376c08, 0xcc7617db) == S_50
    ensures Round(SHA, S_50, 0x2748774c, 0xb9e66c34) == S_51
    ensures Round(SHA, S_51, 0x34b0bcb5, 0xa9993667) == S_52
  {}

  lemma Turns52()
    ensures Round(SHA, S_52, 0x391c0cb3, 0x84badedd) == S_53
    ensures Round(SHA, S_53, 0x4ed8aa4a, 0xc21462bc) == S_54
    ensures Round(SHA, S_54, 0x5b9cca4f, 0x1487472c) == S_55
    ensures Round(SHA, S_55, 0x682e6ff3, 0xb20f7a99) == S_56
  {}

  lemma Turns56()
    ensures Round(SHA, S_56, 0x748f82ee, 0xef57b9cd) == S_57
    ensures Round(SHA, S_57, 0x78a5636f, 0xebe6b238) == S_58
    ensures Round(SHA, S_58, 0x84c87814, 0x9fe3095e) == S_59
    ensures Round(SHA, S_59, 0x8cc70208, 0x78bc8d4b) == S_60
  {}

  lemma Turns60()
    ensures Round(SHA, S_60, 0x90befffa, 0xa43fcf15) == S_61
    ensures Round(SHA, S_61, 0xa4506ceb, 0x668b2ff8) == S_62
    ensures Round(SHA, S_62, 0xbef9a3f7, 0xeeaba2cc) == S_63
    ensures Round(SHA, S_63, 0xc67178f2, 0x12b1edeb) == S_64
  {}

  lemma RoundsTo8()
    ensures After(8, S_8)
  {
    hide Word, After, Key, Round, Rounds, ScheduleWord;
    Keys0();
    Turns0();
    Turns4();
    FirstWords();
    NoRound();
    NextRound(0, S_0, 0x428a2f98, 0x61626380, S_1);
    NextRound(1, S_1, 0x71374491, 0x00000000, S_2);
    NextRound(2, S_2, 0xb5c0fbcf, 0x00000000, S_3);
    NextRound(3, S_3, 0xe9b5dba5, 0x00000000, S_4);
    NextRound(4, S_4, 0x3956c25b, 0x00000000, S_5);
    NextRound(5, S_5, 0x59f111f1, 0x00000000, S_6);
    NextRound(6, S_6, 0x923f82a4, 0x00000000, S_7);
    NextRound(7, S_7, 0xab1c5ed5, 0x00000000, S_8);
  }

  lemma RoundsTo16()
    ensures After(16, S_16)
  {
    hide Word, After, Key, Round, Rounds, ScheduleWord;
    Keys1();
    Turns8();
    Turns12();
    FirstWords();
    RoundsTo8();
    NextRound(8, S_8, 0xd807aa98, 0x00000000, S_9);
    NextRound(9, S_9, 0x12835b01, 0x00000000, S_10);
    NextRound(10, S_10, 0x243185be, 0x00000000, S_11);
    NextRound(11, S_11, 0x550c7dc3, 0x00000000, S_12);
    NextRound(12, S_12, 0x72be5d74, 0x00000000, S_13);
    NextRound(13, S_13, 0x80deb1fe, 0x00000000, S_14);
    NextRound(14, S_14, 0x9bdc06a7, 0x00000000, S_15);
    NextRound(15, S_15, 0xc19bf174, 0x00000018, S_16);
  }

  lemma RoundsTo24()
    ensures After(24, S_24)
  {
    hide Word, After, Key, Round, Rounds, ScheduleWord;
    Keys2();
    Turns16();
    Turns20();
    WordsTo20();
    WordsTo24();
    RoundsTo16();
    NextRound(16, S_16, 0xe49b69c1, 0x61626380, S_17);
    NextRound(17, S_17, 0xefbe4786, 0x000f0000, S_18);
    NextRound(18, S_18, 0x0fc19dc6, 0x7da86405, S_19);
    NextRound(19, S_19, 0x240ca1cc, 0x600003c6, S_20);
    NextRound(20, S_20, 0x2de92c6f, 0x3e9d7b78, S_21);
    NextRound(21, S_21, 0x4a7484aa, 0x0183fc00, S_22);
    NextRound(22, S_22, 0x5cb0a9dc, 0x12dcbfdb, S_23);
    NextRound(23, S_23, 0x76f988da, 0xe2e2c38e, S_24);
  }

  lemma RoundsTo32()
    ensures After(32, S_32)
  {
    hide Word, After, Key, Round, Rounds, ScheduleWord;
    Keys3();
    Turns24();
    Turns28();
    WordsTo28();
    WordsTo32();
    RoundsTo24();
    NextRound(24, S_24, 0x983e5152, 0xc8215c1a, S_25);
    NextRound(25, S_25, 0xa831c66d, 0xb73679a2, S_26);
    NextRound(26, S_26, 0xb00327c8, 0xe5bc3909, S_27);
    NextRound(27, S_27, 0xbf597fc7, 0x32663c5b, S_28);
    NextRound(28, S_28, 0xc6e00bf3, 0x9d209d67, S_29);
    NextRound(29, S_29, 0xd5a79147, 0xec8726cb, S_30);
    NextRound(30, S_30, 0x06ca6351, 0x702138a4, S_31);
    NextRound(31, S_31, 0x14292967, 0xd3b7973b, S_32);
  }

  lemma RoundsTo40()
    ensures After(40, S_40)
  {
    hide Word, After, Key, Round, Rounds, ScheduleWord;
    Keys4();
    Turns32();
    Turns36();
    WordsTo36();
    WordsTo40();
    RoundsTo32();
    NextRound(32, S_32, 0x27b70a85, 0x93f5997f, S_33);
    NextRound(33, S_33, 0x2e1b2138, 0x3b68ba73, S_34);
    NextRound(34, S_34, 0x4d2c6dfc, 0xaff4ffc1, S_35);
    NextRound(35, S_35, 0x53380d13, 0xf10a5c62, S_36);
    NextRound(36, S_36, 0x650a7354, 0x0a8b3996, S_37);
    NextRound(37, S_37, 0x766a0abb, 0x72af830a, S_38);
    NextRound(38, S_38, 0x81c2c92e, 0x9409e33e, S_39);
    NextRound(39, S_39, 0x92722c85, 0x24641522, S_40);
  }

  lemma RoundsTo48()
    ensures After(48, S_48)
  {
    hide Word, After, Key, Round, Rounds, ScheduleWord;
    Keys5();
    Turns40();
    Turns44();
    WordsTo44();
    WordsTo48();
    RoundsTo40();
    NextRound(40, S_40, 0xa2bfe8a1, 0x9f47bf94, S_41);
    NextRound(41, S_41, 0xa81a664b, 0xf0a64f5a, S_42);
    NextRound(42, S_42, 0xc24b8b70, 0x3e246a79, S_43);
    NextRound(43, S_43, 0xc76c51a3, 0x27333ba3, S_44);
    NextRound(44, S_44, 0xd192e819, 0x0c4763f2, S_45);
    NextRound(45, S_45, 0xd6990624, 0x840abf27, S_46);
    NextRound(46, S_46, 0xf40e3585, 0x7a290d5d, S_47);
    NextRound(47, S_47, 0x106aa070, 0x065c43da, S_48);
  }

  lemma RoundsTo56()
    ensures After(56, S_56)
  {
    hide Word, After, Key, Round, Rounds, ScheduleWord;
    Keys6();
    Turns48();
    Turns52();
    WordsTo52();
    WordsTo56();
    RoundsTo48();
    NextRound(48, S_48, 0x19a4c116, 0xfb3e89cb, S_49);
    NextRound(49, S_49, 0x1e376c08, 0xcc7617db, S_50);
    NextRound(50, S_50, 0x2748774c, 0xb9e66c34, S_51);
    NextRound(51, S_51, 0x34b0bcb5, 0xa9993667, S_52);
    NextRound(52, S_52, 0x391c0cb3, 0x84badedd, S_53);
    NextRound(53, S_53, 0x4ed8aa4a, 0xc21462bc, S_54);
    NextRound(54, S_54, 0x5b9cca4f, 0x1487472c, S_55);
    NextRound(55, S_55, 0x682e6ff3, 0xb20f7a99, S_56);
  }

  lemma RoundsTo64()
    ensures After(64, S_64)
  {
    hide Word, After, Key, Round, Rounds, ScheduleWord;
    Keys7();
    Turns56();
    Turns60();
    WordsTo60();
    WordsTo64();
    RoundsTo56();
    NextRound(56, S_56, 0x748f82ee, 0xef57b9cd, S_57);
    NextRound(57, S_57, 0x78a5636f, 0xebe6b238, S_58);
    NextRound(58, S_58, 0x84c87814, 0x9fe3095e, S_59);
    NextRound(59, S_59, 0x8cc70208, 0x78bc8d4b, S_60);
    NextRound(60, S_60, 0x90befffa, 0xa43fcf15, S_61);
    NextRound(61, S_61, 0xa4506ceb, 0x668b2ff8, S_62);
    NextRound(62, S_62, 0xbef9a3f7, 0xeeaba2cc, S_63);
    NextRound(63, S_63, 0xc67178f2, 0x12b1edeb, S_64);
  }

  lemma WordBytes()
    ensures ToBytes(0xba7816bf) == [0xba, 0x78, 0x16, 0xbf]
    ensures ToBytes(0x8f01cfea) == [0x8f, 0x01, 0xcf, 0xea]
    ensures ToBytes(0x414140de) == [0x41, 0x41, 0x40, 0xde]
    ensures ToBytes(0x5dae2223) == [0x5d, 0xae, 0x22, 0x23]
    ensures ToBytes(0xb00361a3) == [0xb0, 0x03, 0x61, 0xa3]
    ensures ToBytes(0x96177a9c) == [0x96, 0x17, 0x7a, 0x9c]
    ensures ToBytes(0xb410ff61) == [0xb4, 0x10, 0xff, 0x61]
    ensures ToBytes(0xf20015ad) == [0xf2, 0x00, 0x15, 0xad]
  {}

  lemma {:induction false} PowerAbove(k: nat)
    ensures k > 0 ==> Pow256(k) >= 256
    decreases k
  {
    if k > 1 { PowerAbove(k - 1); }
  }

  lemma NoneFits(x: nat, p: nat)
    requires x < p
    ensures x / p == 0
  {}

  lemma LengthOfAbc()
    ensures PadZeros(3) == 52 && BigEndian64(24) == [0, 0, 0, 0, 0, 0, 0] + [24]
  {
    hide Pow256;
    forall i: nat | i < 7 ensures BigEndian64(24)[i] == 0 {
      PowerAbove(7 - i);
      NoneFits(24, Pow256(7 - i));
    }
    LastByte();
  }

  lemma LastByte()
    ensures BigEndian64(24)[7] == 24 && PadZeros(3) == 52
  {
    assert Pow256(0) == 1;
  }

  lemma PaddedAbc()
    ensures Pad([0x61, 0x62, 0x63]) == ABC
  {
    hide Pow256;
    LengthOfAbc();
    assert Sha256.Zeros(52) + [0, 0, 0, 0, 0, 0, 0] == Sha256.Zeros(59);
  }

  lemma OneBlock()
    ensures |ABC| == 64 && |SHA.k| == 64 && Absorb(SHA, START, ABC) == Sum(SHA, START, Rounds(SHA, ABC, START, 64))
  {
    hide Rounds, Sum;
    assert ABC[..64] == ABC && ABC[64..] == [];
  }

  lemma Summed()
    ensures Sum(SHA, START, S_64)
         == Eight(0xba7816bf, 0x8f01cfea, 0x414140de, 0x5dae2223, 0xb00361a3, 0x96177a9c, 0xb410ff61, 0xf20015ad)
  {}

  /** The digest of the standard's one-block message. */
  lemma AbcDigest()
    ensures Digest(SHA, [0x61, 0x62, 0x63])
         == [0xba, 0x78, 0x16, 0xbf, 0x8f, 0x01, 0xcf, 0xea, 0x41, 0x41, 0x40, 0xde, 0x5d, 0xae, 0x22, 0x23,
             0xb0, 0x03, 0x61, 0xa3, 0x96, 0x17, 0x7a, 0x9c, 0xb4, 0x10, 0xff, 0x61, 0xf2, 0x00, 0x15, 0xad]
  {
    hide Absorb, Rounds, Sum, Pad, ToBytes;
    PaddedAbc();
    OneBlock();
    RoundsTo64();
    Summed();
    WordBytes();
  }
}
