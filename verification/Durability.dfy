/** The lineage over real bytes: a crash at any byte of an append loses that record or nothing. */
module Durability {
  import opened Basics
  import opened ByteBits
  import opened Records
  import opened Lineage
  import opened Table
  import opened Invariant
  import opened Refinement
  import J = JournalBytes

  /** How records become journal types and payloads, and back. */
  datatype PayloadCodec = PayloadCodec(encode: Record -> (nat, seq<byte>), decode: (nat, seq<byte>) -> Option<Record>)

  /** Replay cannot tell the two records apart. */
  ghost predicate ReadsAs(x: Record, rec: Record) {
    forall d, seqno, limits :: Replayed(d, x, seqno, limits) == Replayed(d, rec, seqno, limits)
  }

  /** The record's payload is within the journal's bounds and decodes to the record, or to one that replays as it does. */
  ghost predicate Carries(c: PayloadCodec, rec: Record) {
    && c.encode(rec).0 < J.RECORD_TYPE_COUNT
    && |c.encode(rec).1| <= J.MAX_RECORD_PAYLOAD
    && c.decode(c.encode(rec).0, c.encode(rec).1).Some?
    && ReadsAs(c.decode(c.encode(rec).0, c.encode(rec).1).value, rec)
  }

  function Written(c: PayloadCodec, e: Entry): J.Rec {
    J.Rec(c.encode(e.record).0, e.seqno, c.encode(e.record).1)
  }

  function WrittenAll(c: PayloadCodec, es: seq<Entry>): (rs: seq<J.Rec>)
    ensures |rs| == |es| && forall i :: 0 <= i < |es| ==> rs[i] == Written(c, es[i])
  {
    seq(|es|, i requires 0 <= i < |es| => Written(c, es[i]))
  }

  /** The store's replay hook: skip what the snapshot covers, decode and apply the rest. */
  function OnRecord(c: PayloadCodec, covered: nat, limits: Limits, d: DurableState, r: J.Rec): Option<DurableState> {
    if r.seqno <= covered then Some(d)
    else
      var rec := c.decode(r.kind, r.payload);
      if rec.None? then None else Replayed(d, rec.value, r.seqno, limits)
  }

  function HookOf(c: PayloadCodec, covered: nat, limits: Limits): (hook: J.Hook<DurableState>)
    ensures forall d, r :: hook(d, r) == OnRecord(c, covered, limits, d, r)
  {
    (d, r) => OnRecord(c, covered, limits, d, r)
  }

  lemma {:induction false} FoldedSnoc<S>(hook: J.Hook<S>, rs: seq<J.Rec>, r: J.Rec, state: S)
    ensures J.Folded(hook, rs + [r], state)
         == if J.Folded(hook, rs, state).None? then None else hook(J.Folded(hook, rs, state).value, r)
    decreases |rs|
  {
    if rs == [] {
      assert [] + [r] == [r];
    } else {
      assert (rs + [r])[1..] == rs[1..] + [r];
      if hook(state, rs[0]).Some? { FoldedSnoc(hook, rs[1..], r, hook(state, rs[0]).value); }
    }
  }

  /** Folding the written records is replaying the entries. */
  lemma {:induction false} FoldIsReplay(c: PayloadCodec, start: DurableState, covered: nat, base: nat, es: seq<Entry>, limits: Limits)
    requires forall i :: 0 <= i < |es| ==> es[i].seqno == base + 1 + i
    requires forall e :: e in es ==> Carries(c, e.record)
    ensures J.Folded(HookOf(c, covered, limits), WrittenAll(c, es), start) == Replay(start, covered, base, es, limits)
    decreases |es|
  {
    hide Replayed;
    if es != [] {
      var n := |es| - 1;
      FoldIsReplay(c, start, covered, base, es[..n], limits);
      assert WrittenAll(c, es) == WrittenAll(c, es[..n]) + [Written(c, es[n])];
      FoldedSnoc(HookOf(c, covered, limits), WrittenAll(c, es[..n]), Written(c, es[n]), start);
      assert es[n] in es;
    }
  }

  lemma {:induction false} WrittenAscend(c: PayloadCodec, base: nat, es: seq<Entry>)
    requires forall i :: 0 <= i < |es| ==> es[i].seqno == base + 1 + i
    requires forall e :: e in es ==> Carries(c, e.record)
    requires base + |es| < U64_LIMIT
    ensures J.Ascending(WrittenAll(c, es), base)
    decreases |es|
  {
    if es != [] {
      assert es[0] in es;
      assert WrittenAll(c, es)[1..] == WrittenAll(c, es[1..]);
      WrittenAscend(c, base + 1, es[1..]);
    }
  }

  lemma {:induction false} BodySnoc(sum: J.Checksum, rs: seq<J.Rec>, r: J.Rec)
    ensures J.Body(sum, rs + [r]) == J.Body(sum, rs) + J.RecordBytes(sum, r)
    decreases |rs|
  {
    hide J.RecordBytes;
    if rs == [] {
      assert [] + [r] == [r] && [r][1..] == [];
    } else {
      assert (rs + [r])[1..] == rs[1..] + [r];
      BodySnoc(sum, rs[1..], r);
    }
  }

  /** How many of the records are whole when only the last one is cut. */
  lemma {:induction false} CutInLast(sum: J.Checksum, rs: seq<J.Rec>, r: J.Rec, cut: nat)
    requires cut <= |J.RecordBytes(sum, r)|
    ensures J.Whole(sum, rs + [r], |J.Body(sum, rs)| + cut) == |rs| + (if cut == |J.RecordBytes(sum, r)| then 1 else 0)
    decreases |rs|
  {
    hide J.RecordBytes;
    if rs == [] {
      assert [] + [r] == [r] && [r][1..] == [];
      WholeOfNone(sum, cut - |J.RecordBytes(sum, r)|);
    } else {
      assert (rs + [r])[1..] == rs[1..] + [r] && (rs + [r])[0] == rs[0];
      CutInLast(sum, rs[1..], r, cut);
      WholeOfSome(sum, rs + [r], |J.Body(sum, rs)| + cut);
    }
  }

  lemma WholeOfNone(sum: J.Checksum, left: int)
    ensures left >= 0 ==> J.Whole(sum, [], left) == 0
  {}

  lemma WholeOfSome(sum: J.Checksum, rs: seq<J.Rec>, cut: nat)
    requires rs != [] && cut >= |J.RecordBytes(sum, rs[0])|
    ensures J.Whole(sum, rs, cut) == 1 + J.Whole(sum, rs[1..], cut - |J.RecordBytes(sum, rs[0])|)
  {}

  /** The journal file that holds a medium's entries. */
  function FileFor(sum: J.Checksum, c: PayloadCodec, m: Medium): seq<byte> {
    J.FileOf(sum, BaseOf(m), WrittenAll(c, EntriesOf(m)))
  }

  /** What reopening reads from a file, with tail repair. */
  function Reread(sum: J.Checksum, c: PayloadCodec, m: Medium, o: StoreOptions, file: seq<byte>): (J.Replayed<DurableState>, seq<byte>) {
    J.Replay(sum, HookOf(c, Covered(m), o.limits), file, true, Start(m, o))
  }

  lemma FileAppends(sum: J.Checksum, c: PayloadCodec, m: Medium, e: Entry)
    requires m.journal.Some?
    ensures FileFor(sum, c, WithEntry(m, e)) == FileFor(sum, c, m) + J.RecordBytes(sum, Written(c, e))
    ensures WrittenAll(c, EntriesOf(WithEntry(m, e))) == WrittenAll(c, EntriesOf(m)) + [Written(c, e)]
  {
    hide J.Body, J.JournalHeader, J.RecordBytes;
    AppendedEntries(m, e);
    assert WrittenAll(c, EntriesOf(m) + [e]) == WrittenAll(c, EntriesOf(m)) + [Written(c, e)];
    BodySnoc(sum, WrittenAll(c, EntriesOf(m)), Written(c, e));
  }

  /** A prefix of the written records folds to the fold of the medium with that many entries. */
  lemma PrefixFold(c: PayloadCodec, m: Medium, e: Entry, o: StoreOptions)
    requires m.journal.Some? && WellPlaced(m) && e.seqno == BaseOf(m) + |EntriesOf(m)| + 1
    requires (forall x :: x in EntriesOf(m) ==> Carries(c, x.record)) && Carries(c, e.record)
    ensures J.Folded(HookOf(c, Covered(m), o.limits), WrittenAll(c, EntriesOf(m)), Start(m, o)) == Fold(m, o)
    ensures J.Folded(HookOf(c, Covered(m), o.limits), WrittenAll(c, EntriesOf(WithEntry(m, e))), Start(m, o)) == Fold(WithEntry(m, e), o)
  {
    hide J.Folded, Replay, Replayed, Carries;
    AppendedEntries(m, e);
    var n := WithEntry(m, e);
    FoldIsReplay(c, Start(m, o), Covered(m), BaseOf(m), EntriesOf(m), o.limits);
    forall x | x in EntriesOf(n) ensures Carries(c, x.record) {}
    assert Start(n, o) == Start(m, o);
    FoldIsReplay(c, Start(n, o), Covered(n), BaseOf(n), EntriesOf(n), o.limits);
  }

  /** Where the file is cut inside the last record, rereading it delivers the state before that record, and at its end the state after. */
  ghost predicate CrashesCleanly(sum: J.Checksum, c: PayloadCodec, m: Medium, d: DurableState, rec: Record, o: StoreOptions, cut: nat) {
    var next := Entry(d.lastSeq + 1, rec);
    var bytes := J.RecordBytes(sum, Written(c, next));
    && cut <= |bytes|
    && var (r, left) := Reread(sum, c, m, o, FileFor(sum, c, m) + bytes[..cut]);
       && r.Delivered? && !r.emptied && r.base == BaseOf(m)
       && (cut < |bytes| ==> Near(r.state, d, m, o) && left == FileFor(sum, c, m) && r.last == d.lastSeq && r.tornTail == (cut > 0))
       && (cut == |bytes| ==> Near(r.state, After(d, rec, o.limits), WithEntry(m, next), o)
                              && left == FileFor(sum, c, WithEntry(m, next)) && r.last == d.lastSeq + 1 && !r.tornTail)
  }

  /**
   * Write-ahead crash refinement, byte for byte. While the next legal record is being appended, cut the
   * file anywhere in that record. Reopening delivers the state after all completed commits when the
   * record is not whole, the state after it as well when it is, and nothing in between; and the file
   * it leaves holds exactly the records it delivered.
   */
  lemma CrashAtAnyByte(sum: J.Checksum, c: PayloadCodec, m: Medium, d: DurableState, h: History, rec: Record, o: StoreOptions, cut: nat)
    requires Inv(d, h) && Legal(d, h, rec, o.limits) && m.journal.Some? && Describes(m, d, o.limits)
    requires |After(d, rec, o.limits).attempts| <= o.limits.maxAttempts
    requires FenceFree(m) && !rec.FencePut?
    requires (forall e :: e in EntriesOf(m) ==> Carries(c, e.record)) && Carries(c, rec) && d.lastSeq + 1 < U64_LIMIT
    requires cut <= |J.RecordBytes(sum, Written(c, Entry(d.lastSeq + 1, rec)))|
    ensures CrashesCleanly(sum, c, m, d, rec, o, cut)
  {
    hide Inv, Legal, J.JournalHeader, J.Body, J.RecordBytes, J.Folded, J.Whole, J.Replay, J.Ascending, Near, Fold, After, FenceFree, WellPlaced,
      Carries, HookOf, WithEntry, J.LastSeq, WrittenAll;
    var next := Entry(d.lastSeq + 1, rec);
    var n := WithEntry(m, next);
    var hook := HookOf(c, Covered(m), o.limits);
    var rs := WrittenAll(c, EntriesOf(m));
    var ns := WrittenAll(c, EntriesOf(n));
    FileAppends(sum, c, m, next);
    PrefixFold(c, m, next, o);
    AppendDescribes(m, d, h, rec, o.limits);
    FenceFreeAppends(m, next);
    TableGrows(d, h, rec, o.limits);
    assert DescribesFor(m, d, o.limits, o) && DescribesFor(n, After(d, rec, o.limits), o.limits, o);
    AllAscend(c, m, next);
    AppendedEntries(m, next);
    CutInLast(sum, rs, Written(c, next), cut);
    var whole := FileFor(sum, c, n);
    var at := |FileFor(sum, c, m)| + cut;
    PrefixOf(FileFor(sum, c, m), J.RecordBytes(sum, Written(c, next)), cut);
    J.TornTailAtEveryByte(sum, hook, BaseOf(m), ns, Start(m, o), at);
    Ends(c, m, next);
    assert ns[..|rs|] == rs && ns[..|ns|] == ns;
  }

  lemma PrefixOf(a: seq<byte>, b: seq<byte>, cut: nat)
    requires cut <= |b|
    ensures (a + b)[..|a| + cut] == a + b[..cut]
    ensures cut == |b| ==> b[..cut] == b
  {}

  lemma AllAscend(c: PayloadCodec, m: Medium, e: Entry)
    requires m.journal.Some? && WellPlaced(m) && e.seqno == BaseOf(m) + |EntriesOf(m)| + 1 && e.seqno < U64_LIMIT
    requires (forall x :: x in EntriesOf(m) ==> Carries(c, x.record)) && Carries(c, e.record)
    ensures J.Ascending(WrittenAll(c, EntriesOf(WithEntry(m, e))), BaseOf(m))
  {
    hide J.Ascending, Carries, WrittenAll;
    AppendedEntries(m, e);
    var n := WithEntry(m, e);
    forall x | x in EntriesOf(n) ensures Carries(c, x.record) {}
    WrittenAscend(c, BaseOf(n), EntriesOf(n));
  }

  /** The last sequences of the two files. */
  lemma Ends(c: PayloadCodec, m: Medium, e: Entry)
    requires m.journal.Some? && WellPlaced(m) && e.seqno == BaseOf(m) + |EntriesOf(m)| + 1
    ensures J.LastSeq(WrittenAll(c, EntriesOf(m)), BaseOf(m)) == BaseOf(m) + |EntriesOf(m)|
    ensures J.LastSeq(WrittenAll(c, EntriesOf(WithEntry(m, e))), BaseOf(m)) == e.seqno
  {
    AppendedEntries(m, e);
  }
}
