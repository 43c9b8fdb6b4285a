/** The compacted durable state: its layout, its framing, and that both read back exactly. */
module Snapshot {
  import opened Basics
  import opened ByteBits
  import opened Bytes
  import opened Codec
  import opened Reasons
  import opened Records
  import opened Lineage
  import opened RecordCodec

  const SNAPSHOT_MAGIC: nat := 0x31504E53
  const SNAPSHOT_FORMAT: nat := 1
  const SNAPSHOT_HEADER_SIZE: nat := 32
  const MAX_SNAPSHOT_BYTES: nat := 0x200_0000
  const MAX_ENTRY_BYTES: nat := 4096
  const MAX_ELEMENTS: nat := 1000000

  // ---- attempts through the writer and the reader ----

  /** Writes the fixed part of one attempt, field by field. */
  method EncodeFields(w: Writer, r: AttemptRecord)
    modifies w
    ensures !old(w.ok) ==> !w.ok
    ensures old(w.ok) && AttemptOk(r) ==> w.ok && w.buffer == old(w.buffer) + FixedPart(r)
  {
    hide BytesOf, AttemptHead, AttemptMiddle, AttemptTail, AttemptPredecessor, AuthorityIdentity, AuthorityBinding, AttemptOk, TextsFit;
    ghost var before := w.buffer;
    if AttemptOk(r) { AttemptTexts(r); }
    w.PutAll(AttemptHead(r));
    w.PutAll(AuthorityIdentity(r.authority));
    w.PutAll(AuthorityBinding(r.authority));
    w.PutAll(AttemptMiddle(r));
    PredecessorBytes(r);
    if r.predecessor.Some? {
      w.PutAll([Fixed(r.predecessor.value)]);
    }
    w.PutAll(AttemptTail(r));
    if w.ok { FixedParts(r, before); }
  }

  function FixedPart(r: AttemptRecord): seq<byte> {
    BytesOf(AttemptHead(r)) + (PutAuthority(r.authority) + (BytesOf(AttemptMiddle(r)) + (BytesOf(AttemptPredecessor(r)) + BytesOf(AttemptTail(r)))))
  }

  lemma FixedParts(r: AttemptRecord, before: seq<byte>)
    ensures before + FixedPart(r)
         == before + BytesOf(AttemptHead(r)) + BytesOf(AuthorityIdentity(r.authority)) + BytesOf(AuthorityBinding(r.authority))
            + BytesOf(AttemptMiddle(r)) + BytesOf(AttemptPredecessor(r)) + BytesOf(AttemptTail(r))
  {
    hide BytesOf, AttemptHead, AttemptMiddle, AttemptTail, AttemptPredecessor, AuthorityIdentity, AuthorityBinding;
  }

  method EncodeReasons(w: Writer, rs: seq<Reason>)
    modifies w
    ensures !old(w.ok) ==> !w.ok
    ensures old(w.ok) && (forall x :: x in rs ==> TextsFit(ReasonFields(x))) ==> w.ok && w.buffer == old(w.buffer) + PutList(REASON, rs)
  {
    hide BytesOf, ReasonFields, TextsFit;
    assert rs[0..] == rs;
    for i := 0 to |rs|
      invariant !old(w.ok) ==> !w.ok
      invariant old(w.ok) && (forall x :: x in rs ==> TextsFit(ReasonFields(x))) ==>
                  w.ok && w.buffer + PutList(REASON, rs[i..]) == old(w.buffer) + PutList(REASON, rs)
    {
      ghost var sofar := w.buffer;
      assert rs[i..][0] == rs[i] && rs[i..][1..] == rs[i + 1..];
      w.PutAll(ReasonFields(rs[i]));
      assert w.ok ==> sofar + (PutReason(rs[i]) + PutList(REASON, rs[i + 1..])) == w.buffer + PutList(REASON, rs[i + 1..]);
    }
    assert rs[|rs|..] == [];
    assert w.buffer + [] == w.buffer;
  }

  /** Writes one attempt: its fields, then its reasons. */
  method EncodeAttempt(w: Writer, r: AttemptRecord)
    modifies w
    ensures !old(w.ok) ==> !w.ok
    ensures old(w.ok) && AttemptOk(r) ==> w.ok && w.buffer == old(w.buffer) + PutAttempt(r)
  {
    hide FixedPart, AttemptOk, TextsFit, PutAttempt;
    if AttemptOk(r) { AttemptTexts(r); }
    EncodeFields(w, r);
    EncodeReasons(w, r.reasons);
    PutParts(r, old(w.buffer));
  }

  lemma PutParts(r: AttemptRecord, before: seq<byte>)
    ensures before + FixedPart(r) + PutList(REASON, r.reasons) == before + PutAttempt(r)
  {
    hide BytesOf, AttemptHead, AttemptMiddle, AttemptTail, AttemptPredecessor, PutAuthority, PutList;
    var h, a, m := BytesOf(AttemptHead(r)), PutAuthority(r.authority), BytesOf(AttemptMiddle(r));
    var p, t, l := BytesOf(AttemptPredecessor(r)), BytesOf(AttemptTail(r)), PutList(REASON, r.reasons);
    assert before + (h + (a + (m + (p + t)))) + l == before + (h + (a + (m + (p + (t + l)))));
  }

  lemma PredecessorBytes(r: AttemptRecord)
    ensures r.predecessor.None? ==> BytesOf(AttemptPredecessor(r)) == []
    ensures r.predecessor.Some? ==> AttemptPredecessor(r) == [Fixed(r.predecessor.value)] && TextsFit([Fixed(r.predecessor.value)])
  {}

  lemma AttemptTexts(r: AttemptRecord)
    requires AttemptOk(r)
    ensures TextsFit(AttemptHead(r)) && TextsFit(AuthorityIdentity(r.authority)) && TextsFit(AuthorityBinding(r.authority))
    ensures TextsFit(AttemptMiddle(r)) && TextsFit(AttemptTail(r))
    ensures forall x :: x in r.reasons ==> TextsFit(ReasonFields(x))
  {
    hide AttemptHead, AttemptMiddle, AttemptTail, AuthorityIdentity, AuthorityBinding, AuthorityOk;
    AttemptLayout(r);
    AuthorityLayout(r.authority);
    FitTexts(AttemptHead(r));
    FitTexts(AuthorityIdentity(r.authority));
    FitTexts(AuthorityBinding(r.authority));
    FitTexts(AttemptMiddle(r));
    FitTexts(AttemptTail(r));
  }

  /** Reads one attempt, field by field, checking everything at the end. */
  method DecodeAttempt(rd: Reader) returns (r: Option<AttemptRecord>)
    requires rd.Valid() && rd.ok
    modifies rd
    ensures rd.Valid()
    ensures r.Some? <==> GetAttempt(old(rd.Rest())).Some?
    ensures r.Some? ==> GetAttempt(old(rd.Rest())) == Some((r.value, rd.Rest()))
  {
    hide Get, AttemptFrom, AuthorityFrom, GetList;
    var h := rd.TakeAll(ATTEMPT_HEAD);
    var f := rd.TakeAll(AUTHORITY_IDENTITY);
    var g := rd.TakeAll(AUTHORITY_BINDING);
    var authority := if rd.ok then AuthorityFrom(f, g) else None;
    var m := rd.TakeAll(ATTEMPT_MIDDLE);
    var p: seq<Field> := [];
    if rd.ok && On(m[6]) {
      p := rd.TakeAll([SD]);
    } else if rd.ok {
      GetNothing(rd.Rest());
    }
    var t := rd.TakeAll(ATTEMPT_TAIL);
    if !rd.ok || authority.None? {
      return None;
    }
    var empty := AttemptFrom(h, authority.value, m, p, t, []);
    if empty.None? {
      return None;
    }
    ghost var s5 := rd.Rest();
    var rs: seq<Reason> := [];
    var count := Num(t[3]);
    GetListNone(s5, count);
    for i := 0 to count
      invariant rd.Valid() && rd.ok
      invariant match GetList(REASON, count - i, rd.Rest())
                case None => GetList(REASON, count, s5).None?
                case Some((more, last)) => GetList(REASON, count, s5) == Some((rs + more, last))
    {
      ListStep(count - i, rd.Rest());
      var fs := rd.TakeAll(REASON_SHAPE);
      if !rd.ok || Num(fs[0]) >= REASON_CODE_COUNT {
        return None;
      }
      ghost var before := rs;
      rs := rs + [Reason(Num(fs[0]), Str(fs[1]))];
      assert forall more: seq<Reason> :: before + ([rs[|rs| - 1]] + more) == rs + more;
    }
    ListDone(rd.Rest());
    assert rs + [] == rs;
    FromWithReasons(h, authority.value, m, p, t, rs);
    return AttemptFrom(h, authority.value, m, p, t, rs);
  }

  lemma GetNothing(s: seq<byte>)
    ensures Get([], s) == Some(([], s))
  {}

  lemma GetListNone(s: seq<byte>, count: nat)
    ensures match GetList(REASON, count, s)
            case None => true
            case Some((more, last)) => [] + more == more
  {}

  lemma ListStep(count: nat, s: seq<byte>)
    requires count > 0
    ensures GetList(REASON, count, s)
         == match GetReason(s)
            case None => None
            case Some((v, rest)) =>
              match GetList(REASON, count - 1, rest)
              case None => None
              case Some((vs, last)) => Some(([v] + vs, last))
  {
    hide GetReason;
  }

  lemma ListDone(s: seq<byte>)
    ensures GetList(REASON, 0, s) == Some(([], s))
  {}

  lemma FromWithReasons(h: seq<Field>, a: AuthorityVector, m: seq<Field>, p: seq<Field>, t: seq<Field>, rs: seq<Reason>)
    requires |h| == 11 && |m| == 7 && |p| <= 1 && |t| == 4
    ensures AttemptFrom(h, a, m, p, t, []).Some? <==> AttemptFrom(h, a, m, p, t, rs).Some?
  {}

  // ---- the state's layout ----

  function EntryFields(e: IdempotencyEntry): seq<Field> { [H(1), Text(PutEntry(e), MAX_ENTRY_BYTES)] }

  const ENTRY_BLOB: seq<Shape> := [SH, Bounded(MAX_ENTRY_BYTES)]

  function PutBlob(e: IdempotencyEntry): seq<byte> { BytesOf(EntryFields(e)) }

  /** An entry is read from its own bounded blob, which it must fill. */
  function GetBlob(s: seq<byte>): Option<(IdempotencyEntry, seq<byte>)> {
    match Get(ENTRY_BLOB, s)
    case None => None
    case Some((f, rest)) =>
      if Num(f[0]) != 1 then None
      else match GetEntry(Str(f[1]))
        case None => None
        case Some((e, left)) => if left != [] then None else Some((e, rest))
  }

  const BLOB: Coder<IdempotencyEntry> := Coder(PutBlob, GetBlob)

  predicate EntryFits(e: IdempotencyEntry) { |PutEntry(e)| <= MAX_ENTRY_BYTES }

  lemma BlobReadsBack(e: IdempotencyEntry)
    requires EntryOk(e) && EntryFits(e)
    ensures Faithful(BLOB, e)
  {
    hide Get, BytesOf, PutEntry, GetEntry, EntryOk;
    Widths();
    EntryReadsBack(e);
    assert PutEntry(e) + [] == PutEntry(e);
    assert ENTRY.get(ENTRY.put(e) + []) == Some((e, []));
    var fs := EntryFields(e);
    assert Shapes(fs) == ENTRY_BLOB;
    forall rest ensures GetBlob(PutBlob(e) + rest) == Some((e, rest)) {
      FieldsReadBack(fs, rest);
    }
  }

  /** What a durable state must satisfy to be written and read back. */
  predicate StateOk(d: DurableState) {
    && ValidName(d.fabric) && PolicyOk(d.policy) && TopologyOk(d.topology)
    && Long(d.epoch) && IsIncarnation(d.coordinator) && Long(d.lastSeq) && Long(d.bootCount) && Long(d.recordCount) && Long(d.epochAdvances)
    && |d.attempts| <= MAX_ELEMENTS && |d.fences| <= MAX_ELEMENTS && |d.idempotency| <= MAX_ELEMENTS
    && (forall r :: r in d.attempts ==> AttemptOk(r))
    && (forall f :: f in d.fences ==> FenceOk(f))
    && (forall e :: e in d.idempotency ==> EntryOk(e) && EntryFits(e))
  }

  function StateHead(d: DurableState): seq<Field> { [H(IDENTITY_FORMAT), T(d.fabric)] }

  function StateCounters(d: DurableState): seq<Field> {
    [L(d.epoch), Fixed(d.coordinator), L(d.lastSeq), L(d.bootCount), L(d.recordCount), L(d.epochAdvances),
     W(|d.attempts|), W(|d.fences|), W(|d.idempotency|)]
  }

  const STATE_HEAD: seq<Shape> := [SH, ST]
  const STATE_COUNTERS: seq<Shape> := [SL, SI, SL, SL, SL, SL, SW, SW, SW]

  function Tables(d: DurableState): seq<byte> {
    PutList(ATTEMPT, d.attempts) + (PutList(FENCE, d.fences) + PutList(BLOB, d.idempotency))
  }

  /** The serialised state; None when an index entry does not fit its bound. */
  function Serialise(d: DurableState): Option<seq<byte>> {
    if exists e :: e in d.idempotency && !EntryFits(e) then None
    else Some(BytesOf(StateHead(d)) + (PutPolicy(d.policy) + (PutTopology(d.topology) + (BytesOf(StateCounters(d)) + Tables(d)))))
  }

  function GetTables(d: DurableState, attempts: nat, fences: nat, entries: nat, s: seq<byte>): Option<DurableState> {
    match GetList(ATTEMPT, attempts, s)
    case None => None
    case Some((a, s1)) =>
      match GetList(FENCE, fences, s1)
      case None => None
      case Some((f, s2)) =>
        match GetList(BLOB, entries, s2)
        case None => None
        case Some((e, s3)) => if s3 != [] then None else Some(d.(attempts := a, fences := f, idempotency := e))
  }

  function Deserialise(s: seq<byte>): Option<DurableState> {
    match Get(STATE_HEAD, s)
    case None => None
    case Some((h, s1)) =>
      match GetPolicy(s1)
      case None => None
      case Some((policy, s2)) =>
        match GetTopology(s2)
        case None => None
        case Some((topology, s3)) =>
          match Get(STATE_COUNTERS, s3)
          case None => None
          case Some((c, s4)) =>
            if Num(h[0]) != IDENTITY_FORMAT || Num(c[6]) > MAX_ELEMENTS || Num(c[7]) > MAX_ELEMENTS || Num(c[8]) > MAX_ELEMENTS
               || !ValidName(Str(h[1])) then None
            else
              GetTables(DurableState(Str(h[1]), policy, topology, Num(c[0]), Str(c[1]), Num(c[2]), Num(c[3]), Num(c[4]), Num(c[5]), [], [], []),
                        Num(c[6]), Num(c[7]), Num(c[8]), s4)
  }

  lemma StateLayout(d: DurableState)
    requires StateOk(d)
    ensures Shapes(StateHead(d)) == STATE_HEAD && AllFit(StateHead(d))
    ensures Shapes(StateCounters(d)) == STATE_COUNTERS && AllFit(StateCounters(d))
  {
    hide Pow256, PolicyOk, TopologyOk, AttemptOk, FenceOk, EntryOk, EntryFits;
    Widths();
  }

  lemma TablesReadBack(d: DurableState, base: DurableState)
    requires StateOk(d)
    ensures GetTables(base, |d.attempts|, |d.fences|, |d.idempotency|, Tables(d))
         == Some(base.(attempts := d.attempts, fences := d.fences, idempotency := d.idempotency))
  {
    hide PutList, GetList, AttemptOk, FenceOk, EntryOk, EntryFits, Faithful, PolicyOk, TopologyOk;
    forall r | r in d.attempts ensures Faithful(ATTEMPT, r) { AttemptReadsBack(r); }
    forall f | f in d.fences ensures Faithful(FENCE, f) { FenceReadsBack(f); }
    forall e | e in d.idempotency ensures Faithful(BLOB, e) { BlobReadsBack(e); }
    var f, e := PutList(FENCE, d.fences), PutList(BLOB, d.idempotency);
    ListReadsBack(ATTEMPT, d.attempts, f + e);
    ListReadsBack(FENCE, d.fences, e);
    assert e + [] == e;
    ListReadsBack(BLOB, d.idempotency, []);
  }

  /** Every well-formed durable state comes back exactly from its serialised form. */
  lemma StateReadsBack(d: DurableState)
    requires StateOk(d)
    ensures Serialise(d).Some? && Deserialise(Serialise(d).value) == Some(d)
  {
    hide Get, BytesOf, PutPolicy, GetPolicy, PutTopology, GetTopology, Tables, GetTables, AttemptOk, FenceOk, EntryOk, EntryFits,
      PolicyOk, TopologyOk;
    StateLayout(d);
    PolicyReadsBack(d.policy);
    TopologyReadsBack(d.topology);
    var h, c := BytesOf(StateHead(d)), BytesOf(StateCounters(d));
    var p, t, x := PutPolicy(d.policy), PutTopology(d.topology), Tables(d);
    FieldsReadBack(StateHead(d), p + (t + (c + x)));
    assert POLICY.get(POLICY.put(d.policy) + (t + (c + x))) == Some((d.policy, t + (c + x)));
    assert TOPOLOGY.get(TOPOLOGY.put(d.topology) + (c + x)) == Some((d.topology, c + x));
    FieldsReadBack(StateCounters(d), x);
    TablesReadBack(d, DurableState(d.fabric, d.policy, d.topology, d.epoch, d.coordinator, d.lastSeq, d.bootCount, d.recordCount,
                                   d.epochAdvances, [], [], []));
  }

  // ---- the frame ----

  type Checksum = seq<byte> -> nat

  function FramePrefix(sum: Checksum, payload: seq<byte>): (p: seq<byte>)
    ensures |p| == 28
  {
    U32(SNAPSHOT_MAGIC) + U16(SNAPSHOT_FORMAT) + U16(0) + U32(|payload|) + U32(sum(payload) % U32_LIMIT) + Zeros(12)
  }

  function Frame(sum: Checksum, payload: seq<byte>): seq<byte> {
    FramePrefix(sum, payload) + U32(sum(FramePrefix(sum, payload)) % U32_LIMIT) + payload
  }

  datatype Unframed = Payload(bytes: seq<byte>) | Rejected(outcome: Outcome, code: nat)

  /** The frame's checks, first fault first. */
  function Unframe(sum: Checksum, s: seq<byte>): Unframed {
    if |s| < SNAPSHOT_HEADER_SIZE then Rejected(Outcome.Corrupt, CORRUPT_RECORD)
    else if FromDigits(s[0..4]) != SNAPSHOT_MAGIC then Rejected(Outcome.Corrupt, CORRUPT_RECORD)
    else if sum(s[..28]) % U32_LIMIT != FromDigits(s[28..32]) then Rejected(Outcome.Corrupt, CHECKSUM_MISMATCH)
    else if FromDigits(s[4..6]) != SNAPSHOT_FORMAT then Rejected(Outcome.Unsupported, UNSUPPORTED_FORMAT)
    else if FromDigits(s[6..8]) != 0 then Rejected(Outcome.Invalid, RESERVED_BITS_SET)
    else if FromDigits(s[8..12]) > MAX_SNAPSHOT_BYTES then Rejected(Outcome.LimitExceeded, LIMIT_EXCEEDED)
    else if |s| != SNAPSHOT_HEADER_SIZE + FromDigits(s[8..12]) then Rejected(Outcome.Corrupt, CORRUPT_RECORD)
    else if sum(s[32..]) % U32_LIMIT != FromDigits(s[12..16]) then Rejected(Outcome.Corrupt, CHECKSUM_MISMATCH)
    else Payload(s[32..])
  }

  lemma FrameParts(a: seq<byte>, b: seq<byte>, c: seq<byte>, d: seq<byte>, e: seq<byte>, z: seq<byte>, g: seq<byte>, payload: seq<byte>)
    requires |a| == 4 && |b| == 2 && |c| == 2 && |d| == 4 && |e| == 4 && |z| == 12 && |g| == 4
    ensures var s := a + b + c + d + e + z + g + payload;
            && |s| == 32 + |payload|
            && s[0..4] == a && s[4..6] == b && s[6..8] == c && s[8..12] == d && s[12..16] == e && s[28..32] == g
            && s[..28] == a + b + c + d + e + z && s[32..] == payload
  {}

  /** A framed payload within the bound comes back exactly. */
  lemma FrameReadsBack(sum: Checksum, payload: seq<byte>)
    requires |payload| <= MAX_SNAPSHOT_BYTES
    ensures Unframe(sum, Frame(sum, payload)) == Payload(payload)
  {
    hide FromDigits, Digits;
    var crc := sum(payload) % U32_LIMIT;
    var stored := sum(FramePrefix(sum, payload)) % U32_LIMIT;
    FrameParts(U32(SNAPSHOT_MAGIC), U16(SNAPSHOT_FORMAT), U16(0), U32(|payload|), U32(crc), Zeros(12), U32(stored), payload);
    FieldRoundTrip(SNAPSHOT_MAGIC);
    FieldRoundTrip(SNAPSHOT_FORMAT);
    FieldRoundTrip(0);
    FieldRoundTrip(|payload|);
    FieldRoundTrip(crc);
    FieldRoundTrip(stored);
  }

  /** A snapshot file: serialise, frame; unframe, deserialise. Compaction loses nothing of a well-formed state. */
  lemma SnapshotReadsBack(sum: Checksum, d: DurableState)
    requires StateOk(d)
    requires Serialise(d).Some? ==> |Serialise(d).value| <= MAX_SNAPSHOT_BYTES
    ensures Serialise(d).Some?
    ensures var file := Frame(sum, Serialise(d).value);
            Unframe(sum, file).Payload? && Deserialise(Unframe(sum, file).bytes) == Some(d)
  {
    hide Serialise, Deserialise, Frame, Unframe, StateOk;
    StateReadsBack(d);
    FrameReadsBack(sum, Serialise(d).value);
  }
}
