/** The journal's bytes: framed records, the append-only writer, and the replay that repairs a torn tail. */
module JournalBytes {
  import opened Basics
  import opened ByteBits
  import opened Bytes

  const HEADER_SIZE: nat := 32
  const RECORD_HEADER_SIZE: nat := 32
  const MAX_RECORD_PAYLOAD: nat := 0x10_0000
  const JOURNAL_MAGIC: nat := 0x314E494C
  const RECORD_MAGIC: nat := 0x3143524C
  const FORMAT_VERSION: nat := 1
  const RECORD_TYPE_COUNT: nat := 12

  /** The integrity sum; every result holds whatever it is. */
  type Checksum = seq<byte> -> nat

  datatype Rec = Rec(kind: nat, seqno: nat, payload: seq<byte>)

  datatype Cause =
    | BadMagic | HeaderChecksum | VersionMismatch | UnknownType | TooLarge | ReservedBitsSet
    | PayloadChecksum | SequenceRegression | HookRefused | HeaderIncomplete | TornTail

  // ---- writing ----

  function Sealed(sum: Checksum, prefix: seq<byte>): (h: seq<byte>)
    requires |prefix| == 28
    ensures |h| == 32
  {
    prefix + U32(sum(prefix) % U32_LIMIT)
  }

  function JournalPrefix(base: nat): (p: seq<byte>)
    ensures |p| == 28
  {
    U32(JOURNAL_MAGIC) + U16(FORMAT_VERSION) + U16(0) + U64(base) + U64(0) + U32(0)
  }

  function JournalHeader(sum: Checksum, base: nat): (h: seq<byte>)
    ensures |h| == HEADER_SIZE
  {
    Sealed(sum, JournalPrefix(base))
  }

  function RecordPrefix(kind: nat, length: nat, seqno: nat, crc: nat): (p: seq<byte>)
    ensures |p| == 28
  {
    U32(RECORD_MAGIC) + U16(FORMAT_VERSION) + U16(kind) + U32(length) + U64(seqno) + U32(crc) + U32(0)
  }

  function RecordHeader(sum: Checksum, r: Rec): (h: seq<byte>)
    ensures |h| == RECORD_HEADER_SIZE
  {
    Sealed(sum, RecordPrefix(r.kind, |r.payload|, r.seqno, sum(r.payload) % U32_LIMIT))
  }

  function RecordBytes(sum: Checksum, r: Rec): (s: seq<byte>)
    ensures |s| == RECORD_HEADER_SIZE + |r.payload|
  {
    RecordHeader(sum, r) + r.payload
  }

  function Body(sum: Checksum, rs: seq<Rec>): seq<byte>
    decreases |rs|
  {
    if rs == [] then [] else RecordBytes(sum, rs[0]) + Body(sum, rs[1..])
  }

  function FileOf(sum: Checksum, base: nat, rs: seq<Rec>): seq<byte> {
    JournalHeader(sum, base) + Body(sum, rs)
  }

  /** Stores the low `width` bytes of a value at an offset. */
  method StoreLittle(out: array<byte>, offset: nat, value: nat, width: nat)
    requires offset + width <= out.Length
    modifies out
    ensures out[offset..offset + width] == Digits(value, width)
    ensures out[..offset] == old(out[..offset]) && out[offset + width..] == old(out[offset + width..])
  {
    var rest := value;
    for i := 0 to width
      invariant out[..offset] == old(out[..offset]) && out[offset + width..] == old(out[offset + width..])
      invariant out[offset..offset + i] + Digits(rest, width - i) == Digits(value, width)
    {
      DigitsStep(rest, width - i);
      ghost var done := out[offset..offset + i];
      out[offset + i] := rest % 256;
      assert out[offset..offset + i + 1] == done + [rest % 256];
      rest := rest / 256;
    }
    assert Digits(rest, 0) == [];
  }

  /** The record header, filled field by field at its offsets. */
  method BuildRecordHeader(sum: Checksum, kind: nat, length: nat, seqno: nat, crc: nat) returns (header: array<byte>)
    ensures fresh(header) && header[..] == Sealed(sum, RecordPrefix(kind, length, seqno, crc))
  {
    header := new byte[32];
    StoreLittle(header, 0, RECORD_MAGIC, 4);
    StoreLittle(header, 4, FORMAT_VERSION, 2);
    GrowPrefix(header[..], 4, 6);
    StoreLittle(header, 6, kind, 2);
    GrowPrefix(header[..], 6, 8);
    StoreLittle(header, 8, length, 4);
    GrowPrefix(header[..], 8, 12);
    StoreLittle(header, 12, seqno, 8);
    GrowPrefix(header[..], 12, 20);
    StoreLittle(header, 20, crc, 4);
    GrowPrefix(header[..], 20, 24);
    StoreLittle(header, 24, 0, 4);
    GrowPrefix(header[..], 24, 28);
    ghost var prefix := header[..28];
    StoreLittle(header, 28, sum(header[..28]) % U32_LIMIT, 4);
    GrowPrefix(header[..], 28, 32);
    assert header[..32] == header[..];
  }

  lemma GrowPrefix(s: seq<byte>, i: nat, j: nat)
    requires i <= j <= |s|
    ensures s[..j] == s[..i] + s[i..j]
  {}

  /** The sink of a writer: what becomes of the bytes of one append. */
  datatype Fate = Lands | Breaks(kept: nat)

  class JournalWriter {
    var file: seq<byte>
    var lastSeq: nat
    var failed: bool
    var bytesWritten: nat

    constructor (content: seq<byte>, last: nat)
      ensures file == content && lastSeq == last && !failed && bytesWritten == 0
    {
      file, lastSeq, failed, bytesWritten := content, last, false, 0;
    }

    /**
     * Appends one record. A refused record leaves the file alone; a broken write leaves a proper
     * prefix of the record, or all of it unacknowledged, and the writer failed for good.
     */
    method Append(sum: Checksum, r: Rec, fate: Fate) returns (ok: bool)
      modifies this
      ensures ok <==> !old(failed) && |r.payload| <= MAX_RECORD_PAYLOAD && old(lastSeq) < r.seqno && fate.Lands?
      ensures ok ==> file == old(file) + RecordBytes(sum, r) && lastSeq == r.seqno && !failed
                     && bytesWritten == old(bytesWritten) + |RecordBytes(sum, r)|
      ensures !ok ==> lastSeq == old(lastSeq) && bytesWritten == old(bytesWritten)
      ensures !ok ==> exists k :: 0 <= k <= |RecordBytes(sum, r)| && file == old(file) + RecordBytes(sum, r)[..k]
      ensures old(failed) || |r.payload| > MAX_RECORD_PAYLOAD || r.seqno <= old(lastSeq) ==> file == old(file)
      ensures !ok ==> failed == (old(failed) || |r.payload| <= MAX_RECORD_PAYLOAD)
    {
      assert file == file + RecordBytes(sum, r)[..0];
      if failed {
        return false;
      }
      if |r.payload| > MAX_RECORD_PAYLOAD {
        return false;
      }
      if r.seqno <= lastSeq {
        failed := true;
        return false;
      }
      var header := BuildRecordHeader(sum, r.kind, |r.payload|, r.seqno, sum(r.payload) % U32_LIMIT);
      var bytes := header[..] + r.payload;
      match fate
      case Breaks(kept) =>
        file := file + (if kept < |bytes| then bytes[..kept] else bytes[..|bytes|]);
        failed := true;
        return false;
      case Lands =>
        file := file + bytes;
        lastSeq := r.seqno;
        bytesWritten := bytesWritten + |bytes|;
        return true;
    }
  }

  // ---- reading ----

  /** A parsed header field by field. */
  datatype Fields = Fields(magic: nat, version: nat, kind: nat, length: nat, seqno: nat, crc: nat, reserved: nat, stored: nat)

  function ReadFields(s: seq<byte>): Fields
    requires |s| >= 32
  {
    Fields(FromDigits(s[0..4]), FromDigits(s[4..6]), FromDigits(s[6..8]), FromDigits(s[8..12]), FromDigits(s[12..20]),
           FromDigits(s[20..24]), FromDigits(s[24..28]), FromDigits(s[28..32]))
  }

  /** Everything a record header is checked for, first fault first. */
  function HeaderFault(f: Fields, sum: nat): Option<Cause> {
    if f.magic != RECORD_MAGIC then Some(BadMagic)
    else if sum != f.stored then Some(HeaderChecksum)
    else if f.version != FORMAT_VERSION then Some(VersionMismatch)
    else if f.kind >= RECORD_TYPE_COUNT then Some(UnknownType)
    else if f.length > MAX_RECORD_PAYLOAD then Some(TooLarge)
    else if f.reserved != 0 then Some(ReservedBitsSet)
    else None
  }

  datatype Head = Torn | Bad(cause: Cause) | Good(rec: Rec)

  /** What the front of the remaining bytes amounts to. */
  function ReadRecord(sum: Checksum, s: seq<byte>, last: nat): (h: Head)
    ensures h.Good? ==> RECORD_HEADER_SIZE + |h.rec.payload| <= |s|
  {
    if |s| < RECORD_HEADER_SIZE then Torn
    else
      var f := ReadFields(s);
      var fault := HeaderFault(f, sum(s[..28]) % U32_LIMIT);
      if fault.Some? then Bad(fault.value)
      else if |s| - RECORD_HEADER_SIZE < f.length then Torn
      else
        var payload := s[32..32 + f.length];
        if sum(payload) % U32_LIMIT != f.crc then Bad(PayloadChecksum)
        else if f.seqno <= last then Bad(SequenceRegression)
        else Good(Rec(f.kind, f.seqno, payload))
  }

  /** What a scan of the body delivers: the folded state, the last sequence, how many records, and the torn rest. */
  datatype Scanned<+S> = Ended(state: S, last: nat, records: nat, rest: seq<byte>) | Refused(cause: Cause)

  type Hook<!S> = (S, Rec) -> Option<S>

  function Scan<S>(sum: Checksum, hook: Hook<S>, s: seq<byte>, last: nat, state: S, records: nat): (r: Scanned<S>)
    ensures r.Ended? ==> |r.rest| <= |s|
    decreases |s|
  {
    if s == [] then Ended(state, last, records, [])
    else match ReadRecord(sum, s, last)
      case Torn => Ended(state, last, records, s)
      case Bad(cause) => Refused(cause)
      case Good(r) =>
        var next := hook(state, r);
        if next.None? then Refused(HookRefused)
        else Scan(sum, hook, s[RECORD_HEADER_SIZE + |r.payload|..], r.seqno, next.value, records + 1)
  }

  function JournalFault(sum: Checksum, s: seq<byte>): Option<Cause>
    requires |s| >= HEADER_SIZE
  {
    if FromDigits(s[0..4]) != JOURNAL_MAGIC then Some(BadMagic)
    else if sum(s[..28]) % U32_LIMIT != FromDigits(s[28..32]) then Some(HeaderChecksum)
    else if FromDigits(s[4..6]) != FORMAT_VERSION then Some(VersionMismatch)
    else if FromDigits(s[6..8]) != 0 || FromDigits(s[16..24]) != 0 || FromDigits(s[24..28]) != 0 then Some(ReservedBitsSet)
    else None
  }

  datatype Replayed<+S> =
    | Delivered(state: S, base: nat, last: nat, records: nat, tornTail: bool, emptied: bool)
    | Failed(cause: Cause)

  /** Replay of a file's bytes: what is delivered, and the file it leaves. */
  function Replay<S>(sum: Checksum, hook: Hook<S>, s: seq<byte>, repair: bool, init: S): (Replayed<S>, seq<byte>) {
    if |s| < HEADER_SIZE then
      if repair then (Delivered(init, 0, 0, 0, true, true), []) else (Failed(HeaderIncomplete), s)
    else
      var fault := JournalFault(sum, s);
      if fault.Some? then (Failed(fault.value), s)
      else
        var base := FromDigits(s[8..16]);
        match Scan(sum, hook, s[HEADER_SIZE..], base, init, 0)
        case Refused(cause) => (Failed(cause), s)
        case Ended(state, last, records, rest) =>
          if rest == [] then (Delivered(state, base, last, records, false, false), s)
          else if repair then (Delivered(state, base, last, records, true, false), s[..|s| - |rest|])
          else (Failed(TornTail), s)
  }

  lemma ScanUnfolds<S>(sum: Checksum, hook: Hook<S>, s: seq<byte>, last: nat, state: S, records: nat)
    requires s != []
    ensures Scan(sum, hook, s, last, state, records)
         == match ReadRecord(sum, s, last)
            case Torn => Ended(state, last, records, s)
            case Bad(cause) => Refused(cause)
            case Good(r) =>
              var next := hook(state, r);
              if next.None? then Refused(HookRefused)
              else Scan(sum, hook, s[RECORD_HEADER_SIZE + |r.payload|..], r.seqno, next.value, records + 1)
  {
    hide ReadRecord;
  }

  lemma ScanEnds<S>(sum: Checksum, hook: Hook<S>, last: nat, state: S, records: nat)
    ensures Scan(sum, hook, [], last, state, records) == Ended(state, last, records, [])
  {}

  /** The replay loop: an offset that moves over the file, record by record. */
  method ReplayFile<S>(sum: Checksum, hook: Hook<S>, data: seq<byte>, repair: bool, init: S) returns (r: Replayed<S>, file: seq<byte>)
    ensures (r, file) == Replay(sum, hook, data, repair, init)
  {
    hide Scan, ReadRecord, JournalFault;
    file := data;
    if |data| < HEADER_SIZE {
      if !repair {
        return Failed(HeaderIncomplete), data;
      }
      return Delivered(init, 0, 0, 0, true, true), [];
    }
    var fault := JournalFault(sum, data);
    if fault.Some? {
      return Failed(fault.value), data;
    }
    var base := FromDigits(data[8..16]);
    var state, last, offset, records := init, base, HEADER_SIZE, 0;
    var torn := false;
    while offset < |data|
      invariant HEADER_SIZE <= offset <= |data| && !torn
      invariant Scan(sum, hook, data[offset..], last, state, records) == Scan(sum, hook, data[HEADER_SIZE..], base, init, 0)
      decreases |data| - offset
    {
      var head := ReadRecord(sum, data[offset..], last);
      ScanUnfolds(sum, hook, data[offset..], last, state, records);
      if head.Torn? {
        torn := true;
        break;
      }
      if head.Bad? {
        return Failed(head.cause), data;
      }
      var next := hook(state, head.rec);
      if next.None? {
        return Failed(HookRefused), data;
      }
      var total := RECORD_HEADER_SIZE + |head.rec.payload|;
      assert data[offset..][total..] == data[offset + total..];
      state, last, records, offset := next.value, head.rec.seqno, records + 1, offset + total;
    }
    if torn {
      if !repair {
        return Failed(TornTail), data;
      }
      file := data[..offset];
      return Delivered(state, base, last, records, true, false), file;
    }
    assert data[offset..] == [];
    ScanEnds(sum, hook, last, state, records);
    return Delivered(state, base, last, records, false, false), data;
  }

  // ---- what was written is what is read ----

  /** Within the format's bounds. */
  predicate Writable(r: Rec) {
    r.kind < RECORD_TYPE_COUNT && |r.payload| <= MAX_RECORD_PAYLOAD && r.seqno < U64_LIMIT
  }

  predicate Ascending(rs: seq<Rec>, last: nat)
    decreases |rs|
  {
    rs == [] || (Writable(rs[0]) && last < rs[0].seqno && Ascending(rs[1..], rs[0].seqno))
  }

  /** The hook folded over records; None as soon as one is refused. */
  function Folded<S>(hook: Hook<S>, rs: seq<Rec>, state: S): Option<S>
    decreases |rs|
  {
    if rs == [] then Some(state)
    else
      var next := hook(state, rs[0]);
      if next.None? then None else Folded(hook, rs[1..], next.value)
  }

  lemma EightFields(a: seq<byte>, b: seq<byte>, c: seq<byte>, d: seq<byte>, e: seq<byte>, f: seq<byte>, g: seq<byte>, h: seq<byte>)
    requires |a| == 4 && |b| == 2 && |c| == 2 && |d| == 4 && |e| == 8 && |f| == 4 && |g| == 4 && |h| == 4
    ensures var s := a + b + c + d + e + f + g + h;
            && |s| == 32
            && s[0..4] == a && s[4..6] == b && s[6..8] == c && s[8..12] == d && s[12..20] == e && s[20..24] == f && s[24..28] == g && s[28..32] == h
            && s[..28] == a + b + c + d + e + f + g
  {}

  /** The header of a written record, read field by field. */
  lemma HeaderReadsBack(sum: Checksum, r: Rec)
    requires Writable(r)
    ensures var h := RecordHeader(sum, r);
            && ReadFields(h) == Fields(RECORD_MAGIC, FORMAT_VERSION, r.kind, |r.payload|, r.seqno, sum(r.payload) % U32_LIMIT, 0, sum(h[..28]) % U32_LIMIT)
            && HeaderFault(ReadFields(h), sum(h[..28]) % U32_LIMIT).None?
  {
    hide FromDigits, Digits;
    var crc := sum(r.payload) % U32_LIMIT;
    var p := RecordPrefix(r.kind, |r.payload|, r.seqno, crc);
    EightFields(U32(RECORD_MAGIC), U16(FORMAT_VERSION), U16(r.kind), U32(|r.payload|), U64(r.seqno), U32(crc), U32(0), U32(sum(p) % U32_LIMIT));
    FieldRoundTrip(RECORD_MAGIC);
    FieldRoundTrip(FORMAT_VERSION);
    FieldRoundTrip(r.kind);
    FieldRoundTrip(|r.payload|);
    FieldRoundTrip(r.seqno);
    FieldRoundTrip(crc);
    FieldRoundTrip(0);
    FieldRoundTrip(sum(p) % U32_LIMIT);
  }

  lemma ReadsHead(s: seq<byte>, h: seq<byte>)
    requires |h| == 32 <= |s| && s[..32] == h
    ensures ReadFields(s) == ReadFields(h) && s[..28] == h[..28]
  {
    assert forall i, j :: 0 <= i <= j <= 32 ==> s[i..j] == h[i..j];
  }

  /** A record at the front is read whole when it is there whole, and reported torn when it is not. */
  lemma ReadsFront(sum: Checksum, s: seq<byte>, r: Rec, last: nat)
    requires Writable(r) && last < r.seqno
    requires var b := RecordBytes(sum, r); if |s| < |b| then s == b[..|s|] else s[..|b|] == b
    ensures ReadRecord(sum, s, last) == if |s| < |RecordBytes(sum, r)| then Torn else Good(r)
  {
    hide HeaderFault, ReadFields;
    if |s| >= RECORD_HEADER_SIZE {
      var b := RecordBytes(sum, r);
      assert s[..32] == RecordHeader(sum, r) by {
        assert b[..32] == RecordHeader(sum, r);
        if |s| < |b| { assert s[..32] == b[..|s|][..32] == b[..32]; } else { assert s[..32] == s[..|b|][..32]; }
      }
      HeaderReadsBack(sum, r);
      ReadsHead(s, RecordHeader(sum, r));
      if |s| >= |b| {
        assert s[32..|b|] == s[..|b|][32..] == r.payload;
      }
    }
  }

  /** How many records lie whole inside the first `cut` bytes of the body. */
  function Whole(sum: Checksum, rs: seq<Rec>, cut: nat): (k: nat)
    ensures k <= |rs|
    decreases |rs|
  {
    if rs == [] || cut < |RecordBytes(sum, rs[0])| then 0
    else 1 + Whole(sum, rs[1..], cut - |RecordBytes(sum, rs[0])|)
  }

  function LastSeq(rs: seq<Rec>, last: nat): nat { if rs == [] then last else rs[|rs| - 1].seqno }

  /** `Whole` counts exactly: that many records fit, and one more does not. */
  lemma {:induction false} WholeIsExact(sum: Checksum, rs: seq<Rec>, cut: nat)
    requires cut <= |Body(sum, rs)|
    ensures var k := Whole(sum, rs, cut);
            && |Body(sum, rs[..k])| <= cut
            && Body(sum, rs)[..|Body(sum, rs[..k])|] == Body(sum, rs[..k])
            && (k < |rs| ==> cut < |Body(sum, rs[..k + 1])|)
            && (k == |rs| ==> cut == |Body(sum, rs)|)
    decreases |rs|
  {
    hide RecordBytes;
    var k := Whole(sum, rs, cut);
    if rs != [] {
      var b := RecordBytes(sum, rs[0]);
      if cut < |b| {
        assert rs[..1] == [rs[0]];
        assert Body(sum, rs[..1]) == b + Body(sum, []) == b;
      } else {
        WholeIsExact(sum, rs[1..], cut - |b|);
        assert rs[..k][1..] == rs[1..][..k - 1] && rs[..k][0] == rs[0];
        if k < |rs| { assert rs[..k + 1][1..] == rs[1..][..k] && rs[..k + 1][0] == rs[0]; }
      }
    }
  }

  lemma FrontOf(b: seq<byte>, tail: seq<byte>, cut: nat)
    requires cut <= |b| + |tail|
    ensures cut < |b| ==> (b + tail)[..cut] == b[..cut]
    ensures cut >= |b| ==> (b + tail)[..cut][..|b|] == b && (b + tail)[..cut][|b|..] == tail[..cut - |b|]
  {}

  /** Scanning any prefix of the written body delivers the records wholly inside it and leaves the rest. */
  lemma {:induction false} CutScans<S>(sum: Checksum, hook: Hook<S>, rs: seq<Rec>, last: nat, state: S, records: nat, cut: nat)
    requires Ascending(rs, last) && cut <= |Body(sum, rs)| && Folded(hook, rs, state).Some?
    ensures var k := Whole(sum, rs, cut);
            var out := Scan(sum, hook, Body(sum, rs)[..cut], last, state, records);
            && Folded(hook, rs[..k], state).Some?
            && out.Ended? && out.state == Folded(hook, rs[..k], state).value
            && out.last == LastSeq(rs[..k], last) && out.records == records + k
            && |out.rest| == cut - |Body(sum, rs[..k])|
    decreases |rs|
  {
    hide RecordBytes, ReadRecord;
    var k := Whole(sum, rs, cut);
    var s := Body(sum, rs)[..cut];
    if rs == [] {
      assert s == [];
    } else {
      var r := rs[0];
      var b := RecordBytes(sum, r);
      FrontOf(b, Body(sum, rs[1..]), cut);
      if s != [] {
        RecordIsLong(sum, r);
        ReadsFront(sum, s, r, last);
        ScanUnfolds(sum, hook, s, last, state, records);
      } else {
        RecordIsLong(sum, r);
      }
      if cut >= |b| {
        var next := hook(state, r);
        CutScans(sum, hook, rs[1..], r.seqno, next.value, records + 1, cut - |b|);
        assert rs[..k][1..] == rs[1..][..k - 1] && rs[..k][0] == r;
        LastOfTail(rs, k, last);
      }
    }
  }

  lemma RecordIsLong(sum: Checksum, r: Rec)
    ensures |RecordBytes(sum, r)| == RECORD_HEADER_SIZE + |r.payload|
  {}

  lemma LastOfTail(rs: seq<Rec>, k: nat, last: nat)
    requires 0 < k <= |rs|
    ensures LastSeq(rs[..k], last) == LastSeq(rs[1..][..k - 1], rs[0].seqno)
  {
    assert rs[1..][..k - 1] == rs[..k][1..];
  }

  lemma SixParts(a: seq<byte>, b: seq<byte>, c: seq<byte>, d: seq<byte>, e: seq<byte>, f: seq<byte>, g: seq<byte>, rest: seq<byte>)
    requires |a| == 4 && |b| == 2 && |c| == 2 && |d| == 8 && |e| == 8 && |f| == 4 && |g| == 4
    ensures var s := a + b + c + d + e + f + g + rest;
            s[0..4] == a && s[4..6] == b && s[6..8] == c && s[8..16] == d && s[16..24] == e && s[24..28] == f && s[28..32] == g
            && s[..28] == a + b + c + d + e + f && s[32..] == rest
  {}

  /** A written journal header passes every check and reads back its base. */
  lemma JournalHeaderReadsBack(sum: Checksum, base: nat, rest: seq<byte>)
    requires base < U64_LIMIT
    ensures var s := JournalHeader(sum, base) + rest;
            JournalFault(sum, s).None? && FromDigits(s[8..16]) == base && s[32..] == rest
  {
    hide FromDigits, Digits;
    SixParts(U32(JOURNAL_MAGIC), U16(FORMAT_VERSION), U16(0), U64(base), U64(0), U32(0), U32(sum(JournalPrefix(base)) % U32_LIMIT), rest);
    FieldRoundTrip(JOURNAL_MAGIC);
    FieldRoundTrip(FORMAT_VERSION);
    FieldRoundTrip(0);
    FieldRoundTrip(base);
    FieldRoundTrip(sum(JournalPrefix(base)) % U32_LIMIT);
  }

  /**
   * Torn tails at every byte. Cut the file anywhere from the header's end on: repairing replay
   * delivers exactly the records wholly before the cut and leaves the file that holds just them;
   * strict replay delivers the same when the cut is on a record boundary, and refuses otherwise.
   */
  lemma TornTailAtEveryByte<S>(sum: Checksum, hook: Hook<S>, base: nat, rs: seq<Rec>, init: S, cut: nat)
    requires base < U64_LIMIT && Ascending(rs, base) && Folded(hook, rs, init).Some?
    requires HEADER_SIZE <= cut <= |FileOf(sum, base, rs)|
    ensures var k := Whole(sum, rs, cut - HEADER_SIZE);
            var file := FileOf(sum, base, rs)[..cut];
            var onBoundary := cut == |FileOf(sum, base, rs[..k])|;
            && Folded(hook, rs[..k], init).Some?
            && Replay(sum, hook, file, true, init)
               == (Delivered(Folded(hook, rs[..k], init).value, base, LastSeq(rs[..k], base), k, !onBoundary, false), FileOf(sum, base, rs[..k]))
            && Replay(sum, hook, file, false, init)
               == if onBoundary then (Delivered(Folded(hook, rs[..k], init).value, base, LastSeq(rs[..k], base), k, false, false), file)
                  else (Failed(TornTail), file)
  {
    hide JournalHeader, JournalFault, Body, Scan, Whole, Folded, LastSeq, Ascending;
    var n := cut - HEADER_SIZE;
    var k := Whole(sum, rs, n);
    var file := FileOf(sum, base, rs)[..cut];
    FrontOf(JournalHeader(sum, base), Body(sum, rs), cut);
    assert file == JournalHeader(sum, base) + Body(sum, rs)[..n];
    JournalHeaderReadsBack(sum, base, Body(sum, rs)[..n]);
    CutScans(sum, hook, rs, base, init, 0, n);
    WholeIsExact(sum, rs, n);
    assert file[..HEADER_SIZE + |Body(sum, rs[..k])|] == JournalHeader(sum, base) + Body(sum, rs[..k]);
  }

  lemma {:induction false} AscendingPrefix(rs: seq<Rec>, last: nat, k: nat)
    requires Ascending(rs, last) && k <= |rs|
    ensures Ascending(rs[..k], last)
    decreases |rs|
  {
    if k > 0 {
      AscendingPrefix(rs[1..], rs[0].seqno, k - 1);
      assert rs[..k][1..] == rs[1..][..k - 1];
    }
  }

  lemma {:induction false} WholeOfAll(sum: Checksum, rs: seq<Rec>)
    ensures Whole(sum, rs, |Body(sum, rs)|) == |rs|
    decreases |rs|
  {
    if rs != [] { WholeOfAll(sum, rs[1..]); }
  }

  /** After the repair a second replay, strict or not, delivers the same and finds nothing torn. */
  lemma RepairIsFinal<S>(sum: Checksum, hook: Hook<S>, base: nat, rs: seq<Rec>, init: S, cut: nat, repair: bool)
    requires base < U64_LIMIT && Ascending(rs, base) && Folded(hook, rs, init).Some?
    requires HEADER_SIZE <= cut <= |FileOf(sum, base, rs)|
    ensures var (first, repaired) := Replay(sum, hook, FileOf(sum, base, rs)[..cut], true, init);
            first.Delivered? && Replay(sum, hook, repaired, repair, init) == (first.(tornTail := false), repaired)
  {
    hide Replay, JournalHeader, Body, Whole, Folded, LastSeq, Ascending;
    TornTailAtEveryByte(sum, hook, base, rs, init, cut);
    var k := Whole(sum, rs, cut - HEADER_SIZE);
    AscendingPrefix(rs, base, k);
    var kept := FileOf(sum, base, rs[..k]);
    TornTailAtEveryByte(sum, hook, base, rs[..k], init, |kept|);
    WholeOfAll(sum, rs[..k]);
    assert kept[..|kept|] == kept && rs[..k][..|rs[..k]|] == rs[..k];
  }

  /** A file cut inside its header is emptied by repair and refused otherwise. */
  lemma CutHeader<S>(sum: Checksum, hook: Hook<S>, base: nat, rs: seq<Rec>, init: S, cut: nat)
    requires cut < HEADER_SIZE
    ensures var file := FileOf(sum, base, rs)[..cut];
            && Replay(sum, hook, file, true, init) == (Delivered(init, 0, 0, 0, true, true), [])
            && Replay(sum, hook, file, false, init) == (Failed(HeaderIncomplete), file)
  {}
}
