/** The bit-serial division that CRC-32C stands for, and its algebra. */
module CrcBits {
  import opened ByteBits
  import opened Iteration

  /** One step of division by the Castagnoli polynomial, bits reflected (RFC 3720, section 12.1). */
  function Step(c: bv32): bv32 {
    if c & 1 != 0 then (c >> 1) ^ 0x82F63B78 else c >> 1
  }

  /** The bits of a word in the opposite order: halves exchanged at every scale. */
  function Reflected(c: bv32): bv32 {
    var pairs := ((c & 0x5555_5555) << 1) | ((c >> 1) & 0x5555_5555);
    var nibbles := ((pairs & 0x3333_3333) << 2) | ((pairs >> 2) & 0x3333_3333);
    var bytes := ((nibbles & 0x0F0F_0F0F) << 4) | ((nibbles >> 4) & 0x0F0F_0F0F);
    var halves := ((bytes & 0x00FF_00FF) << 8) | ((bytes >> 8) & 0x00FF_00FF);
    (halves << 16) | (halves >> 16)
  }

  /** A step over a one bit alone leaves the reflected polynomial, which RFC 3720 writes as 0x11EDC6F41; a zero bit only shifts. */
  lemma StepIsReflectedDivision(c: bv32)
    ensures Step(1) == Reflected(0x1EDC_6F41)
    ensures c & 1 == 0 ==> Step(c) == c >> 1
    ensures c & 1 != 0 ==> Step(c) == (c >> 1) ^ Reflected(0x1EDC_6F41)
  {}

  function Xor(a: bv32, b: bv32): bv32 { a ^ b }

  function Widen(b: byte): bv32 { Bits(b) as bv32 }

  /** The bits of a byte in transmission order, least significant first. */
  function BitsOf(b: bv8, n: nat): seq<bool>
    decreases n
  {
    if n == 0 then [] else [b & 1 != 0] + BitsOf(b >> 1, n - 1)
  }

  function Bit(on: bool): bv32 { if on then 1 else 0 }

  /** Bit-at-a-time division: each message bit is mixed into the register, then one step is taken. */
  function FeedBits(c: bv32, bits: seq<bool>): bv32
    decreases |bits|
  {
    if bits == [] then c else FeedBits(Step(Xor(c, Bit(bits[0]))), bits[1..])
  }

  /** Bit-at-a-time division of a whole message into the register. */
  function Divide(c: bv32, data: seq<byte>): bv32
    decreases |data|
  {
    if data == [] then c else Divide(FeedBits(c, BitsOf(Bits(data[0]), 8)), data[1..])
  }

  /** CRC-32C continued from `seed`; the register is complemented on the way in and out. */
  function Crc(seed: bv32, data: seq<byte>): bv32 { Not(Divide(Not(seed), data)) }

  function Not(c: bv32): bv32 { !c }

  // ---- division is linear over exclusive or, and loses nothing ----

  lemma StepXorEvenEven(x: bv32, y: bv32, z: bv32)
    requires z == Xor(x, y) && x & 1 == 0 && y & 1 == 0
    ensures Step(z) == Xor(Step(x), Step(y))
  {}

  lemma StepXorEvenOdd(x: bv32, y: bv32, z: bv32)
    requires z == Xor(x, y) && x & 1 == 0 && y & 1 != 0
    ensures Step(z) == Xor(Step(x), Step(y))
  {}

  lemma StepXorOddEven(x: bv32, y: bv32, z: bv32)
    requires z == Xor(x, y) && x & 1 != 0 && y & 1 == 0
    ensures Step(z) == Xor(Step(x), Step(y))
  {}

  lemma StepXorOddOdd(x: bv32, y: bv32, z: bv32)
    requires z == Xor(x, y) && x & 1 != 0 && y & 1 != 0
    ensures Step(z) == Xor(Step(x), Step(y))
  {}

  lemma StepXor(x: bv32, y: bv32)
    ensures Step(Xor(x, y)) == Xor(Step(x), Step(y))
  {
    var z := Xor(x, y);
    if x & 1 == 0 {
      if y & 1 == 0 { StepXorEvenEven(x, y, z); } else { StepXorEvenOdd(x, y, z); }
    } else {
      if y & 1 == 0 { StepXorOddEven(x, y, z); } else { StepXorOddOdd(x, y, z); }
    }
  }

  lemma StepsXor(n: nat, x: bv32, y: bv32)
    ensures Iterate(Step, n, Xor(x, y)) == Xor(Iterate(Step, n, x), Iterate(Step, n, y))
  {
    forall a, b ensures Step(Xor(a, b)) == Xor(Step(a), Step(b)) { StepXor(a, b); }
    IterateHomomorphism(Step, Xor, n, x, y);
  }

  /** The top bit of the polynomial is set, so a step can be undone. */
  function Unstep(s: bv32): bv32 {
    if s & 0x8000_0000 != 0 then ((s ^ 0x82F63B78) << 1) | 1 else s << 1
  }

  lemma UnstepEven(x: bv32, s: bv32)
    requires x & 1 == 0 && s == Step(x)
    ensures Unstep(s) == x
  {}

  lemma UnstepOdd(x: bv32, s: bv32)
    requires x & 1 != 0 && s == Step(x)
    ensures Unstep(s) == x
  {}

  lemma StepInjective(x: bv32, y: bv32)
    requires Step(x) == Step(y)
    ensures x == y
  {
    if x & 1 == 0 { UnstepEven(x, Step(x)); } else { UnstepOdd(x, Step(x)); }
    if y & 1 == 0 { UnstepEven(y, Step(y)); } else { UnstepOdd(y, Step(y)); }
  }

  lemma StepsInjective(n: nat, x: bv32, y: bv32)
    requires Iterate(Step, n, x) == Iterate(Step, n, y)
    ensures x == y
  {
    forall a, b | Step(a) == Step(b) ensures a == b { StepInjective(a, b); }
    IterateInjective(Step, n, x, y);
  }

  lemma XorLaws(a: bv32, b: bv32, c: bv32)
    ensures Xor(Xor(a, b), c) == Xor(a, Xor(b, c))
    ensures Xor(a, 0) == a
    ensures Xor(a, b) == Xor(a, c) ==> b == c
  {}

  // ---- eight steps at a time ----

  lemma StepOfEven(c: bv32)
    requires c & 1 == 0
    ensures Step(c) == c >> 1
  {}

  lemma LowByteZero(c: bv32)
    requires c & 0xFF == 0
    ensures c & 1 == 0 && (c >> 1) & 1 == 0 && (c >> 2) & 1 == 0 && (c >> 3) & 1 == 0
    ensures (c >> 4) & 1 == 0 && (c >> 5) & 1 == 0 && (c >> 6) & 1 == 0 && (c >> 7) & 1 == 0
    ensures (c >> 1) >> 1 == c >> 2 && (c >> 2) >> 1 == c >> 3 && (c >> 3) >> 1 == c >> 4
    ensures (c >> 4) >> 1 == c >> 5 && (c >> 5) >> 1 == c >> 6 && (c >> 6) >> 1 == c >> 7
    ensures (c >> 7) >> 1 == c >> 8
  {}

  /** Eight steps of a register whose low byte is zero are a plain shift. */
  lemma StepsOfHigh(c: bv32)
    requires c & 0xFF == 0
    ensures Iterate(Step, 8, c) == c >> 8
  {
    LowByteZero(c);
    Unroll8(Step, c);
    StepOfEven(c); StepOfEven(c >> 1); StepOfEven(c >> 2); StepOfEven(c >> 3);
    StepOfEven(c >> 4); StepOfEven(c >> 5); StepOfEven(c >> 6); StepOfEven(c >> 7);
  }

  lemma SplitLowByte(c: bv32)
    ensures c == Xor(c & 0xFF, c & 0xFFFFFF00)
    ensures (c & 0xFFFFFF00) & 0xFF == 0
    ensures (c & 0xFFFFFF00) >> 8 == c >> 8
  {}

  /** What makes a 256-entry table enough: only the low byte of the register needs dividing. */
  lemma TableIdentity(c: bv32)
    ensures Iterate(Step, 8, c) == Xor(Iterate(Step, 8, c & 0xFF), c >> 8)
  {
    SplitLowByte(c);
    StepsXor(8, c & 0xFF, c & 0xFFFFFF00);
    StepsOfHigh(c & 0xFFFFFF00);
  }

  lemma SplitLowBit(b: bv8)
    ensures b as bv32 == Xor(Bit(b & 1 != 0), (b & 0xFE) as bv32)
    ensures Step((b & 0xFE) as bv32) == (b >> 1) as bv32
  {}

  /** The bits left after `n` feeds are what `n` steps of the mixed register still carry. */
  lemma {:induction false} FeedBitsAreSteps(c: bv32, b: bv8, rest: bv8, n: nat)
    requires ShiftOut(b, n) == rest
    ensures Iterate(Step, n, Xor(c, b as bv32)) == Xor(FeedBits(c, BitsOf(b, n)), rest as bv32)
    decreases n
  {
    if n != 0 {
      var low, high := Bit(b & 1 != 0), (b & 0xFE) as bv32;
      SplitLowBit(b);
      XorLaws(c, low, high);
      StepXor(Xor(c, low), high);
      FeedBitsAreSteps(Step(Xor(c, low)), b >> 1, rest, n - 1);
      assert BitsOf(b, n)[1..] == BitsOf(b >> 1, n - 1);
    }
  }

  function ShiftOut(b: bv8, n: nat): bv8
    decreases n
  {
    if n == 0 then b else ShiftOut(b >> 1, n - 1)
  }

  lemma ByteRunsOut(b: bv8)
    ensures ShiftOut(b, 8) == 0
  {
    assert ShiftOut(b, 8) == ShiftOut(b >> 1 >> 1 >> 1 >> 1, 4) == b >> 1 >> 1 >> 1 >> 1 >> 1 >> 1 >> 1 >> 1;
  }

  /** Mixing a whole byte in and stepping eight times is the same as feeding its bits one by one. */
  lemma FeedByte(c: bv32, b: byte)
    ensures FeedBits(c, BitsOf(Bits(b), 8)) == Iterate(Step, 8, Xor(c, Widen(b)))
  {
    ByteRunsOut(Bits(b));
    FeedBitsAreSteps(c, Bits(b), 0, 8);
    XorLaws(FeedBits(c, BitsOf(Bits(b), 8)), 0, 0);
  }
}
