/**
 * SHA-256: the standard's definition, and the incremental hasher that streams it.
 * The algorithm is proved for any word type with the operations of `Alu`; `Sha256Words` has the 32-bit instance.
 */
module Sha256 {
  import opened ByteBits
  import opened Bytes

  /** The eight working variables, and the hash value between blocks. */
  datatype Eight<W> = Eight(a: W, b: W, c: W, d: W, e: W, f: W, g: W, h: W)

  /** The functions and constants of sections 4.1.2, 4.2.2 and 5.3.3 of FIPS 180-4. */
  datatype Alu<!W> = Alu(
    add: (W, W) -> W,
    ch: (W, W, W) -> W,
    maj: (W, W, W) -> W,
    bigSigma0: W -> W,
    bigSigma1: W -> W,
    smallSigma0: W -> W,
    smallSigma1: W -> W,
    fromBytes: (byte, byte, byte, byte) -> W,
    toBytes: W -> seq<byte>,
    k: seq<W>,
    h0: Eight<W>)

  const ROUND_COUNT: nat := 64

  type Block = s: seq<byte> | |s| == 64 witness seq(64, _ => 0)

  /** Word `t` of the message schedule, section 6.2.2 step 1. */
  function ScheduleWord<W>(alu: Alu<W>, block: Block, t: nat): W
    decreases t
  {
    if t < 16 then alu.fromBytes(block[4 * t], block[4 * t + 1], block[4 * t + 2], block[4 * t + 3])
    else alu.add(alu.add(alu.add(ScheduleWord(alu, block, t - 16),
                                 alu.smallSigma0(ScheduleWord(alu, block, t - 15))),
                         ScheduleWord(alu, block, t - 7)),
                 alu.smallSigma1(ScheduleWord(alu, block, t - 2)))
  }

  lemma ScheduleUnfolds<W>(alu: Alu<W>, block: Block, t: nat)
    ensures ScheduleWord(alu, block, t)
         == if t < 16 then alu.fromBytes(block[4 * t], block[4 * t + 1], block[4 * t + 2], block[4 * t + 3])
            else alu.add(alu.add(alu.add(ScheduleWord(alu, block, t - 16), alu.smallSigma0(ScheduleWord(alu, block, t - 15))),
                                 ScheduleWord(alu, block, t - 7)),
                         alu.smallSigma1(ScheduleWord(alu, block, t - 2)))
  {}

  /** One round, section 6.2.2 step 3. */
  function Round<W>(alu: Alu<W>, v: Eight<W>, k: W, w: W): Eight<W> {
    var t1 := alu.add(alu.add(alu.add(alu.add(v.h, alu.bigSigma1(v.e)), alu.ch(v.e, v.f, v.g)), k), w);
    var t2 := alu.add(alu.bigSigma0(v.a), alu.maj(v.a, v.b, v.c));
    Eight(alu.add(t1, t2), v.a, v.b, v.c, alu.add(v.d, t1), v.e, v.f, v.g)
  }

  function Rounds<W>(alu: Alu<W>, block: Block, v: Eight<W>, t: nat): Eight<W>
    requires t <= |alu.k|
    decreases t
  {
    if t == 0 then v
    else Round(alu, Rounds(alu, block, v, t - 1), alu.k[t - 1], ScheduleWord(alu, block, t - 1))
  }

  function Sum<W>(alu: Alu<W>, x: Eight<W>, y: Eight<W>): Eight<W> {
    Eight(alu.add(x.a, y.a), alu.add(x.b, y.b), alu.add(x.c, y.c), alu.add(x.d, y.d),
          alu.add(x.e, y.e), alu.add(x.f, y.f), alu.add(x.g, y.g), alu.add(x.h, y.h))
  }

  /** The compression of one block, section 6.2.2. */
  function Compress<W>(alu: Alu<W>, v: Eight<W>, block: Block): Eight<W> {
    Sum(alu, v, Rounds(alu, block, v, |alu.k|))
  }

  /** Hashing of a whole number of blocks, section 6.2. */
  function Absorb<W>(alu: Alu<W>, v: Eight<W>, data: seq<byte>): Eight<W>
    requires |data| % 64 == 0
    decreases |data|
  {
    if data == [] then v else Absorb(alu, Compress(alu, v, data[..64]), data[64..])
  }

  lemma {:induction false} AbsorbOne<W>(alu: Alu<W>, v: Eight<W>, a: seq<byte>, block: Block)
    requires |a| % 64 == 0
    ensures Absorb(alu, v, a + block) == Compress(alu, Absorb(alu, v, a), block)
    decreases |a|
  {
    if a == [] {
      assert a + block == block && block[..64] == block && block[64..] == [];
    } else {
      assert (a + block)[..64] == a[..64] && (a + block)[64..] == a[64..] + block;
      AbsorbOne(alu, Compress(alu, v, a[..64]), a[64..], block);
    }
  }

  // ---- section 5.1.1: padding ----

  function BigEndian64(x: nat): (s: seq<byte>)
    ensures |s| == 8
  {
    seq(8, i requires 0 <= i < 8 => x / Pow256(7 - i) % 256)
  }

  predicate LeavesRoomForLength(length: nat, zeros: nat) { (length + 1 + zeros) % 64 == 56 }

  /** The least number of zero bytes after which the length field ends a block. */
  function PadZeros(length: nat): (k: nat)
    ensures LeavesRoomForLength(length, k)
    ensures forall j: nat :: j < k ==> !LeavesRoomForLength(length, j)
  {
    (119 - length % 64) % 64
  }

  function Zeros(n: nat): (s: seq<byte>)
    ensures |s| == n
  {
    seq(n, _ => 0)
  }

  const COUNTER_LIMIT: nat := 0x1_0000_0000_0000_0000

  /** The padded message; the length field holds the bit length modulo 2^64. */
  function Pad(m: seq<byte>): (s: seq<byte>)
    ensures |s| % 64 == 0
  {
    assert LeavesRoomForLength(|m|, PadZeros(|m|));
    m + [0x80] + Zeros(PadZeros(|m|)) + BigEndian64(8 * |m| % COUNTER_LIMIT)
  }

  function Output<W>(alu: Alu<W>, v: Eight<W>): seq<byte> {
    alu.toBytes(v.a) + alu.toBytes(v.b) + alu.toBytes(v.c) + alu.toBytes(v.d)
    + alu.toBytes(v.e) + alu.toBytes(v.f) + alu.toBytes(v.g) + alu.toBytes(v.h)
  }

  /** The digest of a message. */
  function Digest<W>(alu: Alu<W>, m: seq<byte>): seq<byte> {
    Output(alu, Absorb(alu, alu.h0, Pad(m)))
  }

  // ---- the incremental hasher ----

  /** The bytes hashed so far are the compressed blocks followed by the buffered ones. */
  ghost predicate Holds<W>(alu: Alu<W>, state: Eight<W>, pending: seq<byte>, done: seq<byte>) {
    && |pending| <= |done|
    && (|done| - |pending|) % 64 == 0
    && pending == done[|done| - |pending|..]
    && state == Absorb(alu, alu.h0, done[..|done| - |pending|])
  }

  lemma CounterAdds(a: nat, b: nat)
    ensures (8 * a % COUNTER_LIMIT + b * 8) % COUNTER_LIMIT == 8 * (a + b) % COUNTER_LIMIT
  {}

  lemma NothingHeld<W>(alu: Alu<W>)
    ensures Holds(alu, alu.h0, [], [])
  {}

  lemma BufferByte<W>(alu: Alu<W>, state: Eight<W>, pending: seq<byte>, done: seq<byte>, b: byte)
    requires Holds(alu, state, pending, done)
    ensures Holds(alu, state, pending + [b], done + [b])
  {
    hide Absorb;
    var cut := |done| - |pending|;
    assert (done + [b])[..cut] == done[..cut];
    assert (done + [b])[cut..] == done[cut..] + [b];
  }

  lemma FlushBuffer<W>(alu: Alu<W>, state: Eight<W>, pending: Block, done: seq<byte>)
    requires Holds(alu, state, pending, done)
    ensures Holds(alu, Compress(alu, state, pending), [], done)
  {
    hide Absorb, Compress;
    var cut := |done| - |pending|;
    AbsorbOne(alu, alu.h0, done[..cut], pending);
    assert done[..cut] + pending == done == done[..|done|];
  }

  lemma HashBlock<W>(alu: Alu<W>, state: Eight<W>, done: seq<byte>, block: Block)
    requires Holds(alu, state, [], done)
    ensures Holds(alu, Compress(alu, state, block), [], done + block)
  {
    hide Absorb, Compress;
    assert done[..|done|] == done && (done + block)[..|done + block|] == done + block;
    AbsorbOne(alu, alu.h0, done, block);
  }

  lemma WholeBlocks<W>(alu: Alu<W>, state: Eight<W>, pending: seq<byte>, done: seq<byte>)
    requires Holds(alu, state, pending, done) && |pending| < 64 && |done| % 64 == 0
    ensures state == Absorb(alu, alu.h0, done)
  {
    hide Absorb;
    assert done[..|done|] == done;
  }

  // ---- padding one zero byte at a time ----

  function Padded(m: seq<byte>, zeros: nat): seq<byte> { m + [0x80] + Zeros(zeros) }

  lemma PadStart(m: seq<byte>)
    ensures m + [0x80] == Padded(m, 0)
  {}

  lemma PadStep(m: seq<byte>, zeros: nat)
    ensures Padded(m, zeros) + [0] == Padded(m, zeros + 1)
  {}

  lemma PadNotDone(m: seq<byte>, zeros: nat)
    requires zeros <= PadZeros(|m|) && |Padded(m, zeros)| % 64 != 56
    ensures zeros < PadZeros(|m|)
  {
    assert LeavesRoomForLength(|m|, PadZeros(|m|));
  }

  lemma PadDone(m: seq<byte>, zeros: nat)
    requires zeros <= PadZeros(|m|) && |Padded(m, zeros)| % 64 == 56
    ensures Padded(m, zeros) + BigEndian64(8 * |m| % COUNTER_LIMIT) == Pad(m)
  {
    assert LeavesRoomForLength(|m|, zeros);
  }

  lemma PadIsWhole(m: seq<byte>)
    ensures |Pad(m)| % 64 == 0
  {}

  lemma Extended(start: seq<byte>, data: seq<byte>, i: nat)
    requires i < |data|
    ensures start + data[..i] + [data[i]] == start + data[..i + 1]
  {}

  class Hasher<W(0)> {
    const alu: Alu<W>
    var state: Eight<W>
    const buffer: array<byte>
    var bitCount: nat
    var bufferSize: nat
    var finished: bool
    /** The caller's bytes since the last reset, and all bytes hashed, padding included. */
    ghost var message: seq<byte>
    ghost var absorbed: seq<byte>

    ghost predicate Streaming()
      reads this, buffer
    {
      && |alu.k| == ROUND_COUNT
      && buffer.Length == 64
      && bufferSize < 64
      && Holds(alu, state, buffer[..bufferSize], absorbed)
      && bitCount == 8 * |absorbed| % COUNTER_LIMIT
    }

    ghost predicate Valid()
      reads this, buffer
    {
      Streaming() && absorbed == if finished then Pad(message) else message
    }

    constructor (alu: Alu<W>)
      requires |alu.k| == ROUND_COUNT
      ensures Valid() && fresh(buffer) && this.alu == alu && message == [] && !finished
    {
      this.alu := alu;
      state := alu.h0;
      buffer := new byte[64];
      bitCount, bufferSize, finished := 0, 0, false;
      message, absorbed := [], [];
      new;
      NothingHeld(alu);
      assert buffer[..0] == [];
    }

    method Reset()
      requires Valid()
      modifies this, buffer
      ensures Valid() && message == [] && !finished
    {
      hide Absorb, Compress, Holds;
      state := alu.h0;
      bitCount, bufferSize, finished := 0, 0, false;
      message, absorbed := [], [];
      NothingHeld(alu);
      assert buffer[..0] == [];
    }

    method Schedule(block: Block) returns (w: array<W>)
      ensures fresh(w) && w.Length == ROUND_COUNT
      ensures forall k: nat :: k < ROUND_COUNT ==> w[k] == ScheduleWord(alu, block, k)
    {
      hide ScheduleWord;
      w := new W[ROUND_COUNT];
      var i := 0;
      while i < 16
        invariant 0 <= i <= 16
        invariant forall k: nat :: k < i ==> w[k] == ScheduleWord(alu, block, k)
      {
        ScheduleUnfolds(alu, block, i);
        w[i] := alu.fromBytes(block[4 * i], block[4 * i + 1], block[4 * i + 2], block[4 * i + 3]);
        i := i + 1;
      }
      while i < ROUND_COUNT
        invariant 16 <= i <= ROUND_COUNT
        invariant forall k: nat :: k < i ==> w[k] == ScheduleWord(alu, block, k)
      {
        ScheduleUnfolds(alu, block, i);
        var s0 := alu.smallSigma0(w[i - 15]);
        var s1 := alu.smallSigma1(w[i - 2]);
        w[i] := alu.add(alu.add(alu.add(w[i - 16], s0), w[i - 7]), s1);
        i := i + 1;
      }
    }

    method CompressInto(block: Block)
      requires |alu.k| == ROUND_COUNT
      modifies this`state
      ensures state == Compress(alu, old(state), block)
    {
      var w := Schedule(block);
      var a, b, c, d := state.a, state.b, state.c, state.d;
      var e, f, g, h := state.e, state.f, state.g, state.h;
      var i := 0;
      while i < ROUND_COUNT
        invariant 0 <= i <= ROUND_COUNT && state == old(state)
        invariant forall k: nat :: k < ROUND_COUNT ==> w[k] == ScheduleWord(alu, block, k)
        invariant Eight(a, b, c, d, e, f, g, h) == Rounds(alu, block, old(state), i)
      {
        var s1 := alu.bigSigma1(e);
        var ch := alu.ch(e, f, g);
        var temp1 := alu.add(alu.add(alu.add(alu.add(h, s1), ch), alu.k[i]), w[i]);
        var s0 := alu.bigSigma0(a);
        var maj := alu.maj(a, b, c);
        var temp2 := alu.add(s0, maj);
        h := g;
        g := f;
        f := e;
        e := alu.add(d, temp1);
        d := c;
        c := b;
        b := a;
        a := alu.add(temp1, temp2);
        i := i + 1;
      }
      state := Eight(alu.add(state.a, a), alu.add(state.b, b), alu.add(state.c, c), alu.add(state.d, d),
                     alu.add(state.e, e), alu.add(state.f, f), alu.add(state.g, g), alu.add(state.h, h));
    }

    /** Copies bytes into the buffer until it is full or they run out. */
    method FillBuffer(data: seq<byte>, from: nat, ghost start: seq<byte>) returns (to: nat)
      requires buffer.Length == 64 && bufferSize <= 64 && from <= |data|
      requires Holds(alu, state, buffer[..bufferSize], start + data[..from])
      modifies this`bufferSize, buffer
      ensures bufferSize <= 64 && from <= to <= |data| && bufferSize - old(bufferSize) == to - from
      ensures bufferSize == 64 || to == |data|
      ensures Holds(alu, state, buffer[..bufferSize], start + data[..to])
    {
      hide Absorb, Compress, Holds;
      to := from;
      while bufferSize < 64 && to < |data|
        invariant bufferSize <= 64 && from <= to <= |data| && bufferSize - old(bufferSize) == to - from
        invariant Holds(alu, state, buffer[..bufferSize], start + data[..to])
      {
        BufferByte(alu, state, buffer[..bufferSize], start + data[..to], data[to]);
        Extended(start, data, to);
        ghost var pending := buffer[..bufferSize];
        buffer[bufferSize] := data[to];
        bufferSize, to := bufferSize + 1, to + 1;
        assert buffer[..bufferSize] == pending + [data[to - 1]];
      }
    }

    /** Compresses whole blocks straight from the data. */
    /** Fills up the pending block from the front of the data and compresses it if it is whole. */
    method TopUp(data: seq<byte>, ghost start: seq<byte>) returns (to: nat)
      requires |alu.k| == ROUND_COUNT && buffer.Length == 64 && bufferSize < 64
      requires Holds(alu, state, buffer[..bufferSize], start + data[..0])
      modifies this`bufferSize, this`state, buffer
      ensures bufferSize < 64 && to <= |data| && (bufferSize == 0 || to == |data|)
      ensures Holds(alu, state, buffer[..bufferSize], start + data[..to])
    {
      hide Absorb, Compress, Holds;
      to := FillBuffer(data, 0, start);
      if bufferSize == 64 {
        assert buffer[..64] == buffer[..];
        FlushBuffer(alu, state, buffer[..], start + data[..to]);
        CompressInto(buffer[..]);
        bufferSize := 0;
        assert buffer[..0] == [];
      }
    }

    method TakeBlocks(data: seq<byte>, from: nat, ghost start: seq<byte>) returns (to: nat)
      requires |alu.k| == ROUND_COUNT && buffer.Length == 64 && from <= |data| && bufferSize < 64
      requires bufferSize == 0 || from == |data|
      requires Holds(alu, state, buffer[..bufferSize], start + data[..from])
      modifies this`state
      ensures from <= to <= |data| && |data| - to < 64 && (bufferSize == 0 || to == |data|)
      ensures Holds(alu, state, buffer[..bufferSize], start + data[..to])
    {
      hide Absorb, Compress, Holds;
      to := from;
      while |data| - to >= 64
        invariant from <= to <= |data| && (bufferSize == 0 || to == |data|)
        invariant Holds(alu, state, buffer[..bufferSize], start + data[..to])
      {
        assert buffer[..bufferSize] == [];
        var block: Block := data[to..to + 64];
        HashBlock(alu, state, start + data[..to], block);
        assert start + data[..to] + block == start + data[..to + 64];
        CompressInto(block);
        to := to + 64;
      }
    }

    /** Hashes more bytes; once finished, the object ignores them. */
    method Update(data: seq<byte>)
      requires Valid()
      modifies this, buffer
      ensures Valid() && finished == old(finished)
      ensures finished ==> message == old(message) && state == old(state)
      ensures !finished ==> message == old(message) + data
    {
      hide Absorb, Compress, Holds, Pad;
      if finished {
        return;
      }
      if |data| == 0 {
        assert message + data == message;
        return;
      }
      CounterAdds(|absorbed|, |data|);
      bitCount := (bitCount + |data| * 8) % COUNTER_LIMIT;
      var offset := 0;
      assert absorbed + data[..0] == absorbed;
      if bufferSize > 0 {
        offset := TopUp(data, absorbed);
      }
      offset := TakeBlocks(data, offset, absorbed);
      offset := FillBuffer(data, offset, absorbed);
      assert data[..offset] == data;
      absorbed := absorbed + data;
      message := message + data;
    }

    /** Appends the 0x80 byte and zeros until eight bytes are left in the block. */
    method PadToLength(ghost m: seq<byte>) returns (ghost zeros: nat)
      requires Valid() && !finished && message == m
      modifies this, buffer
      ensures Valid() && !finished && message == Padded(m, zeros) && zeros <= PadZeros(|m|) && bufferSize == 56
    {
      hide Absorb, Compress, Holds, Pad, Padded, PadZeros;
      Update([0x80]);
      zeros := 0;
      PadStart(m);
      while bufferSize != 56
        invariant Valid() && !finished
        invariant message == Padded(m, zeros) && zeros <= PadZeros(|m|)
        decreases PadZeros(|m|) - zeros
      {
        BufferedCount();
        PadNotDone(m, zeros);
        Update([0]);
        PadStep(m, zeros);
        zeros := zeros + 1;
      }
    }

    /** Pads, and writes the digest of everything hashed since the last reset. */
    method Finish() returns (out: seq<byte>)
      requires Valid()
      modifies this, buffer
      ensures Valid() && finished && message == old(message)
      ensures out == Digest(alu, message)
    {
      hide Absorb, Compress, Holds, Pad, Padded, PadZeros, Output;
      if !finished {
        ghost var m := message;
        var bits := bitCount;
        ghost var zeros := PadToLength(m);
        BufferedCount();
        PadDone(m, zeros);
        var lengthBytes := seq(8, i requires 0 <= i < 8 => bits / Pow256(7 - i) % 256);
        assert lengthBytes == BigEndian64(8 * |m| % COUNTER_LIMIT);
        Update(lengthBytes);
        finished := true;
        message := m;
      }
      BufferedCount();
      PadIsWhole(message);
      WholeBlocks(alu, state, buffer[..bufferSize], absorbed);
      out := Output(alu, state);
    }

    lemma BufferedCount()
      requires Streaming()
      ensures bufferSize == |absorbed| % 64
    {
      hide Absorb;
    }
  }

  /** The length field is the exact bit length of every message the standard covers here. */
  lemma LengthFieldIsExact(m: seq<byte>)
    requires |m| < 0x2000_0000_0000_0000
    ensures 8 * |m| % COUNTER_LIMIT == 8 * |m|
  {}

  function Flatten(pieces: seq<seq<byte>>): seq<byte> {
    if pieces == [] then [] else Flatten(pieces[..|pieces| - 1]) + pieces[|pieces| - 1]
  }

  /** However a message is split across updates, the digest is that of the whole. */
  method HashPieces<W(0)>(alu: Alu<W>, pieces: seq<seq<byte>>) returns (out: seq<byte>)
    requires |alu.k| == ROUND_COUNT
    ensures out == Digest(alu, Flatten(pieces))
  {
    hide Absorb, Compress, Pad, Output;
    var hasher := new Hasher(alu);
    for i := 0 to |pieces|
      invariant hasher.Valid() && !hasher.finished && hasher.alu == alu && fresh(hasher) && fresh(hasher.buffer)
      invariant hasher.message == Flatten(pieces[..i])
    {
      hasher.Update(pieces[i]);
      assert pieces[..i + 1][..i] == pieces[..i];
    }
    assert pieces[..|pieces|] == pieces;
    out := hasher.Finish();
  }
}
