/** The framings byte by byte: what each field is and where it stands, and exactly which bytes are accepted. */
module Layouts {
  import opened Basics
  import opened ByteBits
  import opened Bytes
  import opened Reasons
  import opened Records
  import Wire
  import JournalBytes
  import Snapshot

  type Checksum = seq<byte> -> nat

  // ---- little-endian numbers at an offset ----

  function Word16(s: seq<byte>, i: nat): nat
    requires i + 2 <= |s|
  {
    var low: nat, high: nat := s[i], s[i + 1];
    low + 0x100 * high
  }

  function Word32(s: seq<byte>, i: nat): nat
    requires i + 4 <= |s|
  {
    Word16(s, i) + 0x1_0000 * Word16(s, i + 2)
  }

  function Word64(s: seq<byte>, i: nat): nat
    requires i + 8 <= |s|
  {
    Word32(s, i) + 0x1_0000_0000 * Word32(s, i + 4)
  }

  lemma ReadsTwo(s: seq<byte>, i: nat)
    requires i + 2 <= |s|
    ensures FromDigits(s[i..i + 2]) == Word16(s, i)
  {
    var t := s[i..i + 2];
    assert t[1..][1..] == [];
    assert FromDigits(t[1..]) == s[i + 1];
  }

  /** The number that two runs of digits make together. */
  lemma {:induction false} SplitDigits(a: seq<byte>, b: seq<byte>)
    ensures FromDigits(a + b) == FromDigits(a) + Pow256(|a|) * FromDigits(b)
    decreases |a|
  {
    if a == [] {
      assert a + b == b;
    } else {
      SplitDigits(a[1..], b);
      assert (a + b)[1..] == a[1..] + b;
      Shifted(Pow256(|a| - 1), FromDigits(b));
    }
  }

  lemma Shifted(p: nat, n: nat)
    ensures 256 * (p * n) == (256 * p) * n
  {}

  lemma ReadsFour(s: seq<byte>, i: nat)
    requires i + 4 <= |s|
    ensures FromDigits(s[i..i + 4]) == Word32(s, i)
  {
    ReadsTwo(s, i);
    ReadsTwo(s, i + 2);
    SplitDigits(s[i..i + 2], s[i + 2..i + 4]);
    assert s[i..i + 4] == s[i..i + 2] + s[i + 2..i + 4];
  }

  lemma ReadsEight(s: seq<byte>, i: nat)
    requires i + 8 <= |s|
    ensures FromDigits(s[i..i + 8]) == Word64(s, i)
  {
    var t := s[i..i + 8];
    ReadsFour(s, i + 4);
    ReadsFour(s, i);
    PowersOf256();
    SplitDigits(s[i..i + 4], s[i + 4..i + 8]);
    assert t == s[i..i + 4] + s[i + 4..i + 8];
  }

  /** What is written at an offset reads back there. */
  lemma WrittenAt(s: seq<byte>, i: nat, x: nat)
    ensures i + 2 <= |s| && s[i..i + 2] == U16(x) && x < 0x1_0000 ==> Word16(s, i) == x
    ensures i + 4 <= |s| && s[i..i + 4] == U32(x) && x < U32_LIMIT ==> Word32(s, i) == x
    ensures i + 8 <= |s| && s[i..i + 8] == U64(x) && x < U64_LIMIT ==> Word64(s, i) == x
  {
    hide Word16, Word32, Word64, FromDigits, Digits;
    FieldRoundTrip(x);
    if i + 2 <= |s| { ReadsTwo(s, i); }
    if i + 4 <= |s| { ReadsFour(s, i); }
    if i + 8 <= |s| { ReadsEight(s, i); }
  }

  // ---- the transport's frame ----

  /** A frame at the front of the bytes: magic, version, kind, no flags, length, and the checksum of the header before it and the payload. */
  ghost predicate FrameAt(sum: Checksum, s: seq<byte>, kind: nat, length: nat) {
    && |s| >= 20 + length && s[0] == 0x4C && s[1] == 0x46 && s[2] == 0x46 && s[3] == 0x31
    && Word16(s, 4) == 1 && Word16(s, 6) == kind && Word16(s, 8) == 0 && Word16(s, 10) == 0
    && Word32(s, 12) == length && Word32(s, 16) == sum(s[..16] + s[20..20 + length]) % 0x1_0000_0000
  }

  /** The message types there are. */
  predicate Kind(k: nat) {
    1 <= k <= 3 || 10 <= k <= 13 || 20 <= k <= 25 || k == 30 || k == 40 || k == 41
  }

  lemma FrameHeaderFields(s: seq<byte>)
    requires |s| >= 20
    ensures var h := Wire.ReadFields(s);
            && (h.magic == Wire.MAGIC <==> s[0] == 0x4C && s[1] == 0x46 && s[2] == 0x46 && s[3] == 0x31)
            && h.version == Word16(s, 4) && h.kind == Word16(s, 6) && h.flags == Word16(s, 8) && h.reserved == Word16(s, 10)
            && h.length == Word32(s, 12) && h.sum == Word32(s, 16)
  {
    hide Word16, Word32, FromDigits;
    ReadsTwo(s, 4);
    ReadsTwo(s, 6);
    ReadsTwo(s, 8);
    ReadsTwo(s, 10);
    ReadsFour(s, 12);
    ReadsFour(s, 16);
    assert s[..4] == [s[0], s[1], s[2], s[3]];
  }

  /** The decoder takes a frame exactly when one of a known kind and within the bound stands there whole, and then takes its payload. */
  lemma FrameIsTakenExactlyWhen(sum: Checksum, s: seq<byte>, maxPayload: nat)
    ensures Wire.ReadFrame(sum, s, maxPayload).Good?
            <==> exists kind: nat, length: nat :: Kind(kind) && length <= maxPayload && FrameAt(sum, s, kind, length)
    ensures forall kind: nat, length: nat :: Kind(kind) && length <= maxPayload && FrameAt(sum, s, kind, length) ==>
              Wire.ReadFrame(sum, s, maxPayload) == Wire.Good(Wire.Frame(kind, s[20..20 + length]), 20 + length)
  {
    hide Word16, Word32, Wire.ReadFields;
    if |s| >= 20 {
      FrameHeaderFields(s);
      if Wire.ReadFrame(sum, s, maxPayload).Good? {
        assert FrameAt(sum, s, Word16(s, 6), Word32(s, 12));
      }
    }
  }

  /** Why the decoder gives up on a header, first fault first; otherwise it waits for the rest of the payload or refuses its checksum. */
  lemma FrameIsRefusedBecause(sum: Checksum, s: seq<byte>, maxPayload: nat)
    ensures |s| < 20 ==> Wire.ReadFrame(sum, s, maxPayload) == Wire.NeedMore
    ensures |s| >= 20 ==>
              var head := Wire.ReadFrame(sum, s, maxPayload);
              if !(s[0] == 0x4C && s[1] == 0x46 && s[2] == 0x46 && s[3] == 0x31) then head == Wire.Bad(Wire.BadMagic)
              else if Word16(s, 4) != 1 then head == Wire.Bad(Wire.VersionMismatch(Word16(s, 4)))
              else if !Kind(Word16(s, 6)) then head == Wire.Bad(Wire.UnknownMessageType(Word16(s, 6)))
              else if Word16(s, 8) != 0 || Word16(s, 10) != 0 then head == Wire.Bad(Wire.ReservedBitsSet)
              else if Word32(s, 12) > maxPayload then head == Wire.Bad(Wire.FrameTooLarge(Word32(s, 12)))
              else if |s| < 20 + Word32(s, 12) then head == Wire.NeedMore
              else if !FrameAt(sum, s, Word16(s, 6), Word32(s, 12)) then head == Wire.Bad(Wire.ChecksumMismatch)
              else head.Good?
  {
    hide Word16, Word32, Wire.ReadFields;
    if |s| >= 20 { FrameHeaderFields(s); }
  }

  /** What the encoder writes is such a frame and nothing after it. */
  lemma FrameIsWritten(sum: Checksum, kind: nat, payload: seq<byte>)
    requires kind < 0x1_0000 && |payload| < 0x1_0000_0000
    ensures var s := Wire.FrameBytes(sum, Wire.Frame(kind, payload));
            FrameAt(sum, s, kind, |payload|) && |s| == 20 + |payload| && s[20..] == payload
  {
    hide Word16, Word32, Digits;
    var s := Wire.FrameBytes(sum, Wire.Frame(kind, payload));
    var prefix := Wire.HeaderPrefix(kind, |payload|);
    var crc := sum(prefix + payload) % U32_LIMIT;
    WireParts(Wire.MAGIC, U16(1), U16(kind), U16(0), U16(0), U32(|payload|), U32(crc), payload);
    WrittenAt(s, 4, 1);
    WrittenAt(s, 6, kind);
    WrittenAt(s, 8, 0);
    WrittenAt(s, 10, 0);
    WrittenAt(s, 12, |payload|);
    WrittenAt(s, 16, crc);
    assert s[20..20 + |payload|] == payload;
  }

  lemma WireParts(m: seq<byte>, v: seq<byte>, k: seq<byte>, f: seq<byte>, r: seq<byte>, n: seq<byte>, c: seq<byte>, payload: seq<byte>)
    requires |m| == 4 && |v| == 2 && |k| == 2 && |f| == 2 && |r| == 2 && |n| == 4 && |c| == 4
    ensures var s := m + v + k + f + r + n + c + payload;
            && |s| == 20 + |payload| && s[..4] == m && s[4..6] == v && s[6..8] == k && s[8..10] == f && s[10..12] == r && s[12..16] == n && s[16..20] == c
            && s[..16] == m + v + k + f + r + n && s[20..] == payload
            && s[0] == m[0] && s[1] == m[1] && s[2] == m[2] && s[3] == m[3]
  {}

  // ---- the journal's record ----

  /** A record header at the front of the bytes, under its own checksum. */
  ghost predicate RecordHeaderAt(sum: Checksum, s: seq<byte>) {
    && |s| >= 32 && Word32(s, 0) == 0x3143_524C && Word32(s, 28) == sum(s[..28]) % 0x1_0000_0000
    && Word16(s, 4) == 1 && Word16(s, 6) < 12 && Word32(s, 8) <= 0x10_0000 && Word32(s, 24) == 0
  }

  lemma RecordFields(s: seq<byte>)
    requires |s| >= 32
    ensures var f := JournalBytes.ReadFields(s);
            && f.magic == Word32(s, 0) && f.version == Word16(s, 4) && f.kind == Word16(s, 6) && f.length == Word32(s, 8)
            && f.seqno == Word64(s, 12) && f.crc == Word32(s, 20) && f.reserved == Word32(s, 24) && f.stored == Word32(s, 28)
  {
    hide Word16, Word32, Word64, FromDigits;
    ReadsFour(s, 0);
    ReadsTwo(s, 4);
    ReadsTwo(s, 6);
    ReadsFour(s, 8);
    ReadsEight(s, 12);
    ReadsFour(s, 20);
    ReadsFour(s, 24);
    ReadsFour(s, 28);
  }

  /**
   * What replay makes of the bytes in front of it. A header that is not whole, or whole and sound with
   * its payload cut, is a torn tail; an unsound header, a payload that does not match its checksum and a sequence that
   * does not advance are refused; the rest is the record.
   */
  lemma RecordIsRead(sum: Checksum, s: seq<byte>, last: nat)
    ensures var head := JournalBytes.ReadRecord(sum, s, last);
            if |s| < 32 then head.Torn?
            else if Word32(s, 0) != 0x3143_524C then head == JournalBytes.Bad(JournalBytes.BadMagic)
            else if Word32(s, 28) != sum(s[..28]) % 0x1_0000_0000 then head == JournalBytes.Bad(JournalBytes.HeaderChecksum)
            else if Word16(s, 4) != 1 then head == JournalBytes.Bad(JournalBytes.VersionMismatch)
            else if Word16(s, 6) >= 12 then head == JournalBytes.Bad(JournalBytes.UnknownType)
            else if Word32(s, 8) > 0x10_0000 then head == JournalBytes.Bad(JournalBytes.TooLarge)
            else if Word32(s, 24) != 0 then head == JournalBytes.Bad(JournalBytes.ReservedBitsSet)
            else if |s| < 32 + Word32(s, 8) then head.Torn?
            else if Word32(s, 20) != sum(s[32..32 + Word32(s, 8)]) % 0x1_0000_0000 then head == JournalBytes.Bad(JournalBytes.PayloadChecksum)
            else if Word64(s, 12) <= last then head == JournalBytes.Bad(JournalBytes.SequenceRegression)
            else head == JournalBytes.Good(JournalBytes.Rec(Word16(s, 6), Word64(s, 12), s[32..32 + Word32(s, 8)]))
  {
    hide Word16, Word32, Word64, JournalBytes.ReadFields;
    if |s| >= 32 { RecordFields(s); }
  }

  lemma Parts32(a: seq<byte>, b: seq<byte>, c: seq<byte>, d: seq<byte>, e: seq<byte>, f: seq<byte>, g: seq<byte>, h: seq<byte>, rest: seq<byte>)
    requires |a| == 4 && |b| == 2 && |c| == 2 && |d| == 4 && |e| == 8 && |f| == 4 && |g| == 4 && |h| == 4
    ensures var s := a + b + c + d + e + f + g + h + rest;
            && |s| == 32 + |rest| && s[0..4] == a && s[4..6] == b && s[6..8] == c && s[8..12] == d && s[12..20] == e && s[20..24] == f
            && s[24..28] == g && s[28..32] == h && s[..28] == a + b + c + d + e + f + g && s[32..] == rest
  {}

  /** What the writer appends for a record: its fields at their offsets, the payload's checksum among them, and the payload. */
  lemma RecordIsWritten(sum: Checksum, r: JournalBytes.Rec)
    requires r.kind < 12 && r.seqno < U64_LIMIT && |r.payload| <= 0x10_0000
    ensures var s := JournalBytes.RecordBytes(sum, r);
            && RecordHeaderAt(sum, s) && Word16(s, 6) == r.kind && Word32(s, 8) == |r.payload| && Word64(s, 12) == r.seqno
            && Word32(s, 20) == sum(r.payload) % 0x1_0000_0000 && s[32..] == r.payload
  {
    hide Word16, Word32, Word64, Digits;
    var s := JournalBytes.RecordBytes(sum, r);
    var crc := sum(r.payload) % U32_LIMIT;
    var prefix := JournalBytes.RecordPrefix(r.kind, |r.payload|, r.seqno, crc);
    var own := sum(prefix) % U32_LIMIT;
    Parts32(U32(JournalBytes.RECORD_MAGIC), U16(1), U16(r.kind), U32(|r.payload|), U64(r.seqno), U32(crc), U32(0), U32(own), r.payload);
    WrittenAt(s, 0, JournalBytes.RECORD_MAGIC);
    WrittenAt(s, 4, 1);
    WrittenAt(s, 6, r.kind);
    WrittenAt(s, 8, |r.payload|);
    WrittenAt(s, 12, r.seqno);
    WrittenAt(s, 20, crc);
    WrittenAt(s, 24, 0);
    WrittenAt(s, 28, own);
  }

  /** What is wrong with the journal's own header, first fault first; a sound one carries the base at offset 8. */
  lemma JournalHeaderIsRead(sum: Checksum, s: seq<byte>)
    requires |s| >= 32
    ensures JournalBytes.JournalFault(sum, s)
         == if Word32(s, 0) != 0x314E_494C then Some(JournalBytes.BadMagic)
            else if Word32(s, 28) != sum(s[..28]) % 0x1_0000_0000 then Some(JournalBytes.HeaderChecksum)
            else if Word16(s, 4) != 1 then Some(JournalBytes.VersionMismatch)
            else if Word16(s, 6) != 0 || Word64(s, 16) != 0 || Word32(s, 24) != 0 then Some(JournalBytes.ReservedBitsSet)
            else None
    ensures FromDigits(s[8..16]) == Word64(s, 8)
  {
    hide Word16, Word32, Word64, FromDigits;
    ReadsFour(s, 0);
    ReadsTwo(s, 4);
    ReadsTwo(s, 6);
    ReadsEight(s, 8);
    ReadsEight(s, 16);
    ReadsFour(s, 24);
    ReadsFour(s, 28);
  }

  // ---- the snapshot's frame ----

  /** What a snapshot file is refused for, first fault first; a sound one is its payload. */
  lemma SnapshotIsRead(sum: Checksum, s: seq<byte>)
    ensures Snapshot.Unframe(sum, s)
         == if |s| < 32 then Snapshot.Rejected(Outcome.Corrupt, CORRUPT_RECORD)
            else if Word32(s, 0) != 0x3150_4E53 then Snapshot.Rejected(Outcome.Corrupt, CORRUPT_RECORD)
            else if Word32(s, 28) != sum(s[..28]) % 0x1_0000_0000 then Snapshot.Rejected(Outcome.Corrupt, CHECKSUM_MISMATCH)
            else if Word16(s, 4) != 1 then Snapshot.Rejected(Outcome.Unsupported, UNSUPPORTED_FORMAT)
            else if Word16(s, 6) != 0 then Snapshot.Rejected(Outcome.Invalid, RESERVED_BITS_SET)
            else if Word32(s, 8) > 0x200_0000 then Snapshot.Rejected(Outcome.LimitExceeded, LIMIT_EXCEEDED)
            else if |s| != 32 + Word32(s, 8) then Snapshot.Rejected(Outcome.Corrupt, CORRUPT_RECORD)
            else if Word32(s, 12) != sum(s[32..]) % 0x1_0000_0000 then Snapshot.Rejected(Outcome.Corrupt, CHECKSUM_MISMATCH)
            else Snapshot.Payload(s[32..])
  {
    hide Word16, Word32, FromDigits;
    if |s| >= 32 {
      ReadsFour(s, 0);
      ReadsTwo(s, 4);
      ReadsTwo(s, 6);
      ReadsFour(s, 8);
      ReadsFour(s, 12);
      ReadsFour(s, 28);
    }
  }
}
