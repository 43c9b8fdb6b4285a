/** The 32-bit words of SHA-256. */
module Sha256Words {
  import opened ByteBits
  import opened Sha256

  function RotateRight(x: bv32, n: nat): bv32
    requires n <= 32
  {
    (x >> n) | (x << (32 - n))
  }

  function FromBytes(a: byte, b: byte, c: byte, d: byte): bv32 {
    ((Bits(a) as bv32) << 24) | ((Bits(b) as bv32) << 16) | ((Bits(c) as bv32) << 8) | (Bits(d) as bv32)
  }

  function ToBytes(x: bv32): seq<byte> {
    [Value(((x >> 24) & 0xFF) as bv8), Value(((x >> 16) & 0xFF) as bv8), Value(((x >> 8) & 0xFF) as bv8), Value((x & 0xFF) as bv8)]
  }

  /** The round constants, eight to a row. */
  const K_0: seq<bv32> := [0x428a2f98, 0x71374491, 0xb5c0fbcf, 0xe9b5dba5, 0x3956c25b, 0x59f111f1, 0x923f82a4, 0xab1c5ed5]
  const K_1: seq<bv32> := [0xd807aa98, 0x12835b01, 0x243185be, 0x550c7dc3, 0x72be5d74, 0x80deb1fe, 0x9bdc06a7, 0xc19bf174]
  const K_2: seq<bv32> := [0xe49b69c1, 0xefbe4786, 0x0fc19dc6, 0x240ca1cc, 0x2de92c6f, 0x4a7484aa, 0x5cb0a9dc, 0x76f988da]
  const K_3: seq<bv32> := [0x983e5152, 0xa831c66d, 0xb00327c8, 0xbf597fc7, 0xc6e00bf3, 0xd5a79147, 0x06ca6351, 0x14292967]
  const K_4: seq<bv32> := [0x27b70a85, 0x2e1b2138, 0x4d2c6dfc, 0x53380d13, 0x650a7354, 0x766a0abb, 0x81c2c92e, 0x92722c85]
  const K_5: seq<bv32> := [0xa2bfe8a1, 0xa81a664b, 0xc24b8b70, 0xc76c51a3, 0xd192e819, 0xd6990624, 0xf40e3585, 0x106aa070]
  const K_6: seq<bv32> := [0x19a4c116, 0x1e376c08, 0x2748774c, 0x34b0bcb5, 0x391c0cb3, 0x4ed8aa4a, 0x5b9cca4f, 0x682e6ff3]
  const K_7: seq<bv32> := [0x748f82ee, 0x78a5636f, 0x84c87814, 0x8cc70208, 0x90befffa, 0xa4506ceb, 0xbef9a3f7, 0xc67178f2]

  const K: seq<bv32> := K_0 + K_1 + K_2 + K_3 + K_4 + K_5 + K_6 + K_7

  /** The words that hashing starts from. */
  const START: Eight<bv32> := Eight(0x6a09e667, 0xbb67ae85, 0x3c6ef372, 0xa54ff53a, 0x510e527f, 0x9b05688c, 0x1f83d9ab, 0x5be0cd19)

  const SHA: Alu<bv32> := Alu(
    (x, y) => x + y,
    (x, y, z) => (x & y) ^ ((!x) & z),
    (x, y, z) => (x & y) ^ (x & z) ^ (y & z),
    x => RotateRight(x, 2) ^ RotateRight(x, 13) ^ RotateRight(x, 22),
    x => RotateRight(x, 6) ^ RotateRight(x, 11) ^ RotateRight(x, 25),
    x => RotateRight(x, 7) ^ RotateRight(x, 18) ^ (x >> 3),
    x => RotateRight(x, 17) ^ RotateRight(x, 19) ^ (x >> 10),
    FromBytes,
    ToBytes,
    K,
    START)

  lemma SixtyFourConstants()
    ensures |K| == 64
  {}

  /** The digest of one buffer. */
  method Sha256Of(data: seq<byte>) returns (out: seq<byte>)
    ensures out == Digest(SHA, data)
  {
    hide Absorb, Compress, Pad, Output;
    SixtyFourConstants();
    var hasher := new Hasher(SHA);
    hasher.Update(data);
    assert [] + data == data;
    out := hasher.Finish();
  }

  // ---- where the constants come from ----

  /** The first 64 primes, eight to a row. */
  const PRIMES_0: seq<nat> := [2, 3, 5, 7, 11, 13, 17, 19]
  const PRIMES_1: seq<nat> := [23, 29, 31, 37, 41, 43, 47, 53]
  const PRIMES_2: seq<nat> := [59, 61, 67, 71, 73, 79, 83, 89]
  const PRIMES_3: seq<nat> := [97, 101, 103, 107, 109, 113, 127, 131]
  const PRIMES_4: seq<nat> := [137, 139, 149, 151, 157, 163, 167, 173]
  const PRIMES_5: seq<nat> := [179, 181, 191, 193, 197, 199, 211, 223]
  const PRIMES_6: seq<nat> := [227, 229, 233, 239, 241, 251, 257, 263]
  const PRIMES_7: seq<nat> := [269, 271, 277, 281, 283, 293, 307, 311]

  /** All of them in order. */
  const PRIMES: seq<nat> := PRIMES_0 + PRIMES_1 + PRIMES_2 + PRIMES_3 + PRIMES_4 + PRIMES_5 + PRIMES_6 + PRIMES_7

  /** The whole part of a cube root below 7. */
  function Whole(p: nat): nat {
    if p < 8 then 1 else if p < 27 then 2 else if p < 64 then 3 else if p < 125 then 4 else if p < 216 then 5 else 6
  }

  /** With the whole part before it the word is the cube root of `p` to 32 places: the number's cube does not exceed p, and the next one's does. */
  predicate CubeRoot(p: nat, word: bv32) {
    var n := Whole(p) * 0x1_0000_0000 + word as nat;
    n * n * n <= p * 0x1_0000_0000_0000_0000_0000_0000 < (n + 1) * (n + 1) * (n + 1)
  }

  predicate SquareRoot(p: nat, whole: nat, word: bv32) {
    var n := whole * 0x1_0000_0000 + word as nat;
    n * n <= p * 0x1_0000_0000_0000_0000 < (n + 1) * (n + 1)
  }

  predicate CubeRoots(p: seq<nat>, w: seq<bv32>) {
    |p| == |w| && forall i :: 0 <= i < |w| ==> CubeRoot(p[i], w[i])
  }

  lemma EightRoots(p: seq<nat>, w: seq<bv32>)
    requires |p| == |w| == 8
    requires CubeRoot(p[0], w[0]) && CubeRoot(p[1], w[1]) && CubeRoot(p[2], w[2]) && CubeRoot(p[3], w[3])
    requires CubeRoot(p[4], w[4]) && CubeRoot(p[5], w[5]) && CubeRoot(p[6], w[6]) && CubeRoot(p[7], w[7])
    ensures CubeRoots(p, w)
  {
    hide CubeRoot;
  }

  lemma RootsOfRow0()
    ensures CubeRoots(PRIMES_0, K_0)
  {
    hide CubeRoots;
    assert CubeRoot(2, 0x428a2f98);
    assert CubeRoot(3, 0x71374491);
    assert CubeRoot(5, 0xb5c0fbcf);
    assert CubeRoot(7, 0xe9b5dba5);
    assert CubeRoot(11, 0x3956c25b);
    assert CubeRoot(13, 0x59f111f1);
    assert CubeRoot(17, 0x923f82a4);
    assert CubeRoot(19, 0xab1c5ed5);
    EightRoots(PRIMES_0, K_0);
  }

  lemma RootsOfRow1()
    ensures CubeRoots(PRIMES_1, K_1)
  {
    hide CubeRoots;
    assert CubeRoot(23, 0xd807aa98);
    assert CubeRoot(29, 0x12835b01);
    assert CubeRoot(31, 0x243185be);
    assert CubeRoot(37, 0x550c7dc3);
    assert CubeRoot(41, 0x72be5d74);
    assert CubeRoot(43, 0x80deb1fe);
    assert CubeRoot(47, 0x9bdc06a7);
    assert CubeRoot(53, 0xc19bf174);
    EightRoots(PRIMES_1, K_1);
  }

  lemma RootsOfRow2()
    ensures CubeRoots(PRIMES_2, K_2)
  {
    hide CubeRoots;
    assert CubeRoot(59, 0xe49b69c1);
    assert CubeRoot(61, 0xefbe4786);
    assert CubeRoot(67, 0x0fc19dc6);
    assert CubeRoot(71, 0x240ca1cc);
    assert CubeRoot(73, 0x2de92c6f);
    assert CubeRoot(79, 0x4a7484aa);
    assert CubeRoot(83, 0x5cb0a9dc);
    assert CubeRoot(89, 0x76f988da);
    EightRoots(PRIMES_2, K_2);
  }

  lemma RootsOfRow3()
    ensures CubeRoots(PRIMES_3, K_3)
  {
    hide CubeRoots;
    assert CubeRoot(97, 0x983e5152);
    assert CubeRoot(101, 0xa831c66d);
    assert CubeRoot(103, 0xb00327c8);
    assert CubeRoot(107, 0xbf597fc7);
    assert CubeRoot(109, 0xc6e00bf3);
    assert CubeRoot(113, 0xd5a79147);
    assert CubeRoot(127, 0x06ca6351);
    assert CubeRoot(131, 0x14292967);
    EightRoots(PRIMES_3, K_3);
  }

  lemma RootsOfRow4()
    ensures CubeRoots(PRIMES_4, K_4)
  {
    hide CubeRoots;
    assert CubeRoot(137, 0x27b70a85);
    assert CubeRoot(139, 0x2e1b2138);
    assert CubeRoot(149, 0x4d2c6dfc);
    assert CubeRoot(151, 0x53380d13);
    assert CubeRoot(157, 0x650a7354);
    assert CubeRoot(163, 0x766a0abb);
    assert CubeRoot(167, 0x81c2c92e);
    assert CubeRoot(173, 0x92722c85);
    EightRoots(PRIMES_4, K_4);
  }

  lemma RootsOfRow5()
    ensures CubeRoots(PRIMES_5, K_5)
  {
    hide CubeRoots;
    assert CubeRoot(179, 0xa2bfe8a1);
    assert CubeRoot(181, 0xa81a664b);
    assert CubeRoot(191, 0xc24b8b70);
    assert CubeRoot(193, 0xc76c51a3);
    assert CubeRoot(197, 0xd192e819);
    assert CubeRoot(199, 0xd6990624);
    assert CubeRoot(211, 0xf40e3585);
    assert CubeRoot(223, 0x106aa070);
    EightRoots(PRIMES_5, K_5);
  }

  lemma RootsOfRow6()
    ensures CubeRoots(PRIMES_6, K_6)
  {
    hide CubeRoots;
    assert CubeRoot(227, 0x19a4c116);
    assert CubeRoot(229, 0x1e376c08);
    assert CubeRoot(233, 0x2748774c);
    assert CubeRoot(239, 0x34b0bcb5);
    assert CubeRoot(241, 0x391c0cb3);
    assert CubeRoot(251, 0x4ed8aa4a);
    assert CubeRoot(257, 0x5b9cca4f);
    assert CubeRoot(263, 0x682e6ff3);
    EightRoots(PRIMES_6, K_6);
  }

  lemma RootsOfRow7()
    ensures CubeRoots(PRIMES_7, K_7)
  {
    hide CubeRoots;
    assert CubeRoot(269, 0x748f82ee);
    assert CubeRoot(271, 0x78a5636f);
    assert CubeRoot(277, 0x84c87814);
    assert CubeRoot(281, 0x8cc70208);
    assert CubeRoot(283, 0x90befffa);
    assert CubeRoot(293, 0xa4506ceb);
    assert CubeRoot(307, 0xbef9a3f7);
    assert CubeRoot(311, 0xc67178f2);
    EightRoots(PRIMES_7, K_7);
  }

  lemma RootsJoin(p: seq<nat>, w: seq<bv32>, p': seq<nat>, w': seq<bv32>)
    requires CubeRoots(p, w) && CubeRoots(p', w')
    ensures CubeRoots(p + p', w + w')
  {
    hide CubeRoot;
  }

  /**
   * The round constants are the first 32 bits of the fractional parts of the cube roots of the first
   * 64 primes, and the initial words those of the square roots of the first eight (FIPS 180-4,
   * sections 4.2.2 and 5.3.3).
   */
  lemma ConstantsAreRoots()
    ensures |K| == 64 && CubeRoots(PRIMES, K)
    ensures SquareRoot(2, 1, START.a) && SquareRoot(3, 1, START.b) && SquareRoot(5, 2, START.c) && SquareRoot(7, 2, START.d)
    ensures SquareRoot(11, 3, START.e) && SquareRoot(13, 3, START.f) && SquareRoot(17, 4, START.g) && SquareRoot(19, 4, START.h)
  {
    hide CubeRoots;
    RootsOfRow0();
    RootsOfRow1();
    RootsOfRow2();
    RootsOfRow3();
    RootsOfRow4();
    RootsOfRow5();
    RootsOfRow6();
    RootsOfRow7();
    RootsJoin(PRIMES_0, K_0, PRIMES_1, K_1);
    RootsJoin(PRIMES_0 + PRIMES_1, K_0 + K_1, PRIMES_2, K_2);
    RootsJoin(PRIMES_0 + PRIMES_1 + PRIMES_2, K_0 + K_1 + K_2, PRIMES_3, K_3);
    RootsJoin(PRIMES_0 + PRIMES_1 + PRIMES_2 + PRIMES_3, K_0 + K_1 + K_2 + K_3, PRIMES_4, K_4);
    RootsJoin(PRIMES_0 + PRIMES_1 + PRIMES_2 + PRIMES_3 + PRIMES_4, K_0 + K_1 + K_2 + K_3 + K_4, PRIMES_5, K_5);
    RootsJoin(PRIMES_0 + PRIMES_1 + PRIMES_2 + PRIMES_3 + PRIMES_4 + PRIMES_5, K_0 + K_1 + K_2 + K_3 + K_4 + K_5, PRIMES_6, K_6);
    RootsJoin(PRIMES_0 + PRIMES_1 + PRIMES_2 + PRIMES_3 + PRIMES_4 + PRIMES_5 + PRIMES_6, K_0 + K_1 + K_2 + K_3 + K_4 + K_5 + K_6, PRIMES_7, K_7);
  }
}
