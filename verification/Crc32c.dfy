/** CRC-32C by table: that the loop divides, that it chains, and what it detects. */
module Crc32c {
  import opened ByteBits
  import opened Iteration
  import opened CrcBits

  // ---- the table-driven loop ----

  function Index(i: nat): bv32
    requires i < 256
  {
    Widen(i)
  }

  method TableEntry(i: nat) returns (crc: bv32)
    requires i < 256
    ensures crc == Iterate(Step, 8, Index(i))
  {
    crc := Index(i);
    var bit := 0;
    while bit < 8
      invariant 0 <= bit <= 8
      invariant Iterate(Step, 8 - bit, crc) == Iterate(Step, 8, Index(i))
    {
      ghost var before := crc;
      if crc & 1 != 0 {
        crc := (crc >> 1) ^ 0x82F63B78;
      } else {
        crc := crc >> 1;
      }
      assert crc == Step(before);
      bit := bit + 1;
    }
  }

  ghost predicate IsTable(table: seq<bv32>) {
    |table| == 256 && forall i: nat :: i < 256 ==> table[i] == Iterate(Step, 8, Index(i))
  }

  method BuildTable() returns (table: array<bv32>)
    ensures fresh(table) && IsTable(table[..])
  {
    table := new bv32[256];
    var i := 0;
    while i < 256
      invariant 0 <= i <= 256
      invariant forall k: nat :: k < i ==> table[k] == Iterate(Step, 8, Index(k))
    {
      var entry := TableEntry(i);
      table[i] := entry;
      i := i + 1;
    }
  }

  function LowByte(c: bv32): byte { Value((c & 0xFF) as bv8) }

  lemma LowByteIndex(c: bv32)
    ensures Index(LowByte(c)) == c & 0xFF
  {
    ValueThenBits((c & 0xFF) as bv8);
    NarrowWiden(c);
  }

  lemma NarrowWiden(c: bv32)
    ensures ((c & 0xFF) as bv8) as bv32 == c & 0xFF
  {}

  lemma TableHolds(table: seq<bv32>, c: bv32)
    requires IsTable(table)
    ensures table[LowByte(c)] == Iterate(Step, 8, c & 0xFF)
  {
    LowByteIndex(c);
  }

  lemma FeedByLowByte(crc: bv32, b: byte)
    ensures FeedBits(crc, BitsOf(Bits(b), 8)) == Xor(Iterate(Step, 8, Xor(crc, Widen(b)) & 0xFF), crc >> 8)
  {
    FeedByte(crc, b);
    TableIdentity(Xor(crc, Widen(b)));
    WidenedHigh(crc, b);
  }

  /** One round of the loop: a table look-up and a shift feed exactly one byte. */
  lemma TableRound(table: seq<bv32>, crc: bv32, b: byte)
    requires IsTable(table)
    ensures Xor(table[LowByte(Xor(crc, Widen(b)))], crc >> 8) == FeedBits(crc, BitsOf(Bits(b), 8))
  {
    TableHolds(table, Xor(crc, Widen(b)));
    FeedByLowByte(crc, b);
  }

  method Lookup(table: array<bv32>, crc: bv32, b: byte) returns (next: bv32)
    requires IsTable(table[..])
    ensures next == FeedBits(crc, BitsOf(Bits(b), 8))
  {
    TableRound(table[..], crc, b);
    next := Xor(table[LowByte(Xor(crc, Widen(b)))], crc >> 8);
  }

  method Extend(seed: bv32, data: seq<byte>) returns (result: bv32)
    ensures result == Crc(seed, data)
  {
    var table := BuildTable();
    var crc: bv32 := Not(seed);
    var i := 0;
    while i < |data|
      invariant 0 <= i <= |data|
      invariant IsTable(table[..])
      invariant Divide(crc, data[i..]) == Divide(Not(seed), data)
    {
      assert data[i..][1..] == data[i + 1..];
      crc := Lookup(table, crc, data[i]);
      i := i + 1;
    }
    return Not(crc);
  }

  lemma WidenedHigh(c: bv32, b: byte)
    ensures Xor(c, Widen(b)) >> 8 == c >> 8
  {}

  method Concat(seed: bv32, first: seq<byte>, second: seq<byte>) returns (result: bv32)
    ensures result == Crc(seed, first + second)
  {
    var middle := Extend(seed, first);
    result := Extend(middle, second);
    CrcConcat(seed, first, second);
  }

  lemma {:induction false} DivideConcat(c: bv32, a: seq<byte>, b: seq<byte>)
    ensures Divide(c, a + b) == Divide(Divide(c, a), b)
    decreases |a|
  {
    if a == [] {
      assert a + b == b;
    } else {
      assert (a + b)[1..] == a[1..] + b;
      DivideConcat(FeedBits(c, BitsOf(Bits(a[0]), 8)), a[1..], b);
    }
  }

  lemma CrcConcat(seed: bv32, a: seq<byte>, b: seq<byte>)
    ensures Crc(seed, a + b) == Crc(Crc(seed, a), b)
  {
    DivideConcat(Not(seed), a, b);
    DoubleComplement(Divide(Not(seed), a));
  }

  lemma DoubleComplement(c: bv32)
    ensures Not(Not(c)) == c
  {}

  // ---- error detection ----

  lemma {:induction false} DivideInjective(c: bv32, d: bv32, data: seq<byte>)
    requires Divide(c, data) == Divide(d, data)
    ensures c == d
    decreases |data|
  {
    if data != [] {
      DivideInjective(FeedBits(c, BitsOf(Bits(data[0]), 8)), FeedBits(d, BitsOf(Bits(data[0]), 8)), data[1..]);
      FeedByte(c, data[0]);
      FeedByte(d, data[0]);
      StepsInjective(8, Xor(c, Widen(data[0])), Xor(d, Widen(data[0])));
      XorCancelRight(c, d, Widen(data[0]));
    }
  }

  lemma XorCancelRight(c: bv32, d: bv32, x: bv32)
    requires Xor(c, x) == Xor(d, x)
    ensures c == d
  {}

  /** Up to four bytes packed the way they sit in the register. */
  function Pack(w: seq<byte>): bv32
    decreases |w|
  {
    if w == [] then 0 else Xor(Widen(w[0]), Up(Pack(w[1..])))
  }

  predicate Below(p: bv32, n: nat) {
    if n == 0 then p == 0
    else if n == 1 then p <= 0xFF
    else if n == 2 then p <= 0xFFFF
    else if n == 3 then p <= 0xFFFFFF
    else true
  }

  lemma {:induction false} PackBounded(w: seq<byte>)
    requires |w| <= 4
    ensures Below(Pack(w), |w|)
    decreases |w|
  {
    if w != [] {
      PackBounded(w[1..]);
      PackStepBounded(Widen(w[0]), Pack(w[1..]), |w[1..]|);
    }
  }

  lemma PackStepBounded(b: bv32, p: bv32, n: nat)
    requires b <= 0xFF && Below(p, n) && n < 4
    ensures Below(Xor(b, Up(p)), n + 1)
  {
    if n == 0 { } else if n == 1 { } else if n == 2 { }
  }

  function Up(p: bv32): bv32 { p << 8 }

  lemma ShiftedPack(p: bv32)
    requires p <= 0xFFFFFF
    ensures Up(p) >> 8 == p && Up(p) & 0xFF == 0
  {}

  lemma StepsOfUp(p: bv32)
    requires p <= 0xFFFFFF
    ensures Iterate(Step, 8, Up(p)) == p
  {
    ShiftedPack(p);
    StepsOfHigh(Up(p));
  }

  /** A short run of bytes acts on the register as one mixed word followed by plain stepping. */
  lemma {:induction false} DivideWindow(c: bv32, w: seq<byte>)
    requires |w| <= 4
    ensures Divide(c, w) == Iterate(Step, 8 * |w|, Xor(c, Pack(w)))
    decreases |w|
  {
    if w == [] {
      XorLaws(c, 0, 0);
    } else {
      var b, p := Widen(w[0]), Pack(w[1..]);
      PackBounded(w[1..]);
      FeedByte(c, w[0]);
      DivideWindow(FeedBits(c, BitsOf(Bits(w[0]), 8)), w[1..]);
      StepsOfUp(p);
      StepsXor(8, Xor(c, b), Up(p));
      XorLaws(c, b, Up(p));
      IterateAdd(Step, 8, 8 * |w[1..]|, Xor(c, Pack(w)));
    }
  }

  lemma UnpackPattern(a: bv8, p: bv32, b: bv8, q: bv32)
    requires p <= 0xFFFFFF && q <= 0xFFFFFF
    requires Xor(a as bv32, Up(p)) == Xor(b as bv32, Up(q))
    ensures a == b && p == q
  {}

  lemma UnpackStep(a: byte, p: bv32, b: byte, q: bv32)
    requires p <= 0xFFFFFF && q <= 0xFFFFFF
    requires Xor(Widen(a), Up(p)) == Xor(Widen(b), Up(q))
    ensures a == b && p == q
  {
    UnpackPattern(Bits(a), p, Bits(b), q);
    BitsThenValue(a);
    BitsThenValue(b);
  }

  lemma {:induction false} PackInjective(u: seq<byte>, v: seq<byte>)
    requires |u| == |v| <= 4
    requires Pack(u) == Pack(v)
    ensures u == v
    decreases |u|
  {
    if u != [] {
      PackBounded(u[1..]);
      PackBounded(v[1..]);
      UnpackStep(u[0], Pack(u[1..]), v[0], Pack(v[1..]));
      PackInjective(u[1..], v[1..]);
      assert u == [u[0]] + u[1..] && v == [v[0]] + v[1..];
    }
  }

  lemma WindowChangesCrc(seed: bv32, before: seq<byte>, u: seq<byte>, v: seq<byte>, after: seq<byte>)
    requires |u| == |v| <= 4 && u != v
    ensures Crc(seed, before + u + after) != Crc(seed, before + v + after)
  {
    var c := Divide(Not(seed), before);
    DivideConcat(Not(seed), before + u, after);
    DivideConcat(Not(seed), before, u);
    DivideConcat(Not(seed), before + v, after);
    DivideConcat(Not(seed), before, v);
    if Crc(seed, before + u + after) == Crc(seed, before + v + after) {
      DoubleComplement(Divide(Not(seed), before + u + after));
      DoubleComplement(Divide(Not(seed), before + v + after));
      DivideInjective(Divide(c, u), Divide(c, v), after);
      DivideWindow(c, u);
      DivideWindow(c, v);
      StepsInjective(8 * |u|, Xor(c, Pack(u)), Xor(c, Pack(v)));
      XorLaws(c, Pack(u), Pack(v));
      PackInjective(u, v);
    }
  }

  /** Any corruption confined to four consecutive bytes is detected. */
  lemma BurstDetected(seed: bv32, x: seq<byte>, y: seq<byte>, at: nat)
    requires |x| == |y| && x != y && at <= |x|
    requires forall i :: 0 <= i < |x| && !(at <= i < at + 4) ==> x[i] == y[i]
    ensures Crc(seed, x) != Crc(seed, y)
  {
    var end := if at + 4 <= |x| then at + 4 else |x|;
    assert x == x[..at] + x[at..end] + x[end..];
    assert y == y[..at] + y[at..end] + y[end..];
    assert x[..at] == y[..at];
    assert x[end..] == y[end..];
    WindowChangesCrc(seed, x[..at], x[at..end], y[at..end], x[end..]);
  }
}
