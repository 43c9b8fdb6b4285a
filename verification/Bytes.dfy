/** Fixed-width little-endian numbers. */
module Bytes {
  import opened Basics
  import opened ByteBits

  const MAX_ENCODED_STRING: nat := 4096

  function Pow256(n: nat): (p: nat)
    ensures p > 0
  {
    if n == 0 then 1 else 256 * Pow256(n - 1)
  }

  /** The low `n` bytes of a number, low end first. */
  function Digits(x: nat, n: nat): (s: seq<byte>)
    ensures |s| == n
    decreases n
  {
    if n == 0 then [] else [x % 256] + Digits(x / 256, n - 1)
  }

  function FromDigits(s: seq<byte>): nat
    decreases |s|
  {
    if s == [] then 0 else var low: nat := s[0]; low + 256 * FromDigits(s[1..])
  }

  lemma DigitsStep(x: nat, n: nat)
    requires n > 0
    ensures Digits(x, n) == [x % 256] + Digits(x / 256, n - 1)
  {}

  lemma {:induction false} DigitsRoundTrip(x: nat, n: nat)
    requires x < Pow256(n)
    ensures FromDigits(Digits(x, n)) == x
    decreases n
  {
    if n != 0 {
      DigitsRoundTrip(x / 256, n - 1);
      assert Digits(x, n)[1..] == Digits(x / 256, n - 1);
    }
  }

  function U16(x: nat): (s: seq<byte>)
    ensures |s| == 2
  {
    Digits(x, 2)
  }

  function U32(x: nat): (s: seq<byte>)
    ensures |s| == 4
  {
    Digits(x, 4)
  }

  function U64(x: nat): (s: seq<byte>)
    ensures |s| == 8
  {
    Digits(x, 8)
  }

  lemma PowersOf256()
    ensures Pow256(2) == 0x1_0000 && Pow256(4) == U32_LIMIT && Pow256(8) == U64_LIMIT
  {
    assert Pow256(4) == 256 * 256 * 256 * 256;
    assert Pow256(8) == 256 * 256 * 256 * 256 * Pow256(4);
  }

  lemma FieldRoundTrip(x: nat)
    ensures x < 0x1_0000 ==> FromDigits(U16(x)) == x
    ensures x < U32_LIMIT ==> FromDigits(U32(x)) == x
    ensures x < U64_LIMIT ==> FromDigits(U64(x)) == x
  {
    PowersOf256();
    if x < 0x1_0000 { DigitsRoundTrip(x, 2); }
    if x < U32_LIMIT { DigitsRoundTrip(x, 4); }
    if x < U64_LIMIT { DigitsRoundTrip(x, 8); }
  }
}
