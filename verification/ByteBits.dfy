/** A byte is a number below 256; this module ties it to its eight-bit pattern. */
module ByteBits {

  type byte = n: int | 0 <= n < 256

  function Bits(n: byte): bv8 { n as bv8 }

  function Value(b: bv8): byte { b as int }

  lemma ValueThenBits(b: bv8)
    ensures Bits(Value(b)) == b
  {}

  lemma DoublePattern(b: bv8)
    requires b < 0x80
    ensures (b << 1) as int == 2 * (b as int)
    ensures ((b << 1) | 1) as int == 2 * (b as int) + 1
  {}

  lemma HighBitClear(b: bv8)
    ensures b < 0x80 <==> b as int < 128
  {}

  /** Every byte value is the value of some pattern, built bit by bit. */
  lemma {:induction false} PatternOf(n: byte) returns (b: bv8)
    ensures Value(b) == n
    decreases n
  {
    if n == 0 {
      b := 0;
    } else {
      var half := PatternOf(n / 2);
      HighBitClear(half);
      DoublePattern(half);
      b := if n % 2 == 0 then half << 1 else (half << 1) | 1;
    }
  }

  lemma BitsThenValue(n: byte)
    ensures Value(Bits(n)) == n
  {
    var b := PatternOf(n);
    ValueThenBits(b);
  }
}
