/** The medium against the live state: what replay rebuilds, after any commits, crashes and compactions. */
module Refinement {
  import opened Basics
  import opened Records
  import opened Lineage
  import opened Table
  import opened Invariant

  /** The watermark below which replay skips. */
  function Covered(m: Medium): nat {
    if m.snapshot.Some? then m.snapshot.value.lastSeq else 0
  }

  function BaseOf(m: Medium): nat {
    if m.journal.Some? then m.journal.value.base else Covered(m)
  }

  function EntriesOf(m: Medium): seq<Entry> {
    if m.journal.Some? then m.journal.value.entries else []
  }

  predicate Uncovered(m: Medium, e: Entry) { e.seqno > Covered(m) }

  /** No fence lies above the watermark: their payloads carry the position 0, which replay refuses. */
  ghost predicate FenceFree(m: Medium) {
    forall e :: e in EntriesOf(m) && Uncovered(m, e) ==> !e.record.FencePut?
  }

  /** The entries take consecutive positions after the base, and reach at least the watermark. */
  ghost predicate WellPlaced(m: Medium) {
    && (forall i :: 0 <= i < |EntriesOf(m)| ==> EntriesOf(m)[i].seqno == BaseOf(m) + 1 + i)
    && Covered(m) <= BaseOf(m) + |EntriesOf(m)|
  }

  predicate DefinesPolicy(m: Medium) {
    m.snapshot.Some? || exists e :: e in EntriesOf(m) && e.record.PolicyCommit?
  }

  predicate DefinesTopology(m: Medium) {
    m.snapshot.Some? || exists e :: e in EntriesOf(m) && e.record.TopologyCommit?
  }

  /** The fold of the medium, before the journal is opened for writing. */
  function Fold(m: Medium, o: StoreOptions): Option<DurableState> {
    Replay(Start(m, o), Covered(m), BaseOf(m), EntriesOf(m), o.limits)
  }

  /**
   * The rebuilt state `x` is the state `d` except for each attempt's two lineage positions and the
   * record count; what the medium never defined comes from the options.
   */
  ghost predicate Near(x: DurableState, d: DurableState, m: Medium, o: StoreOptions) {
    && x.fabric == (if m.snapshot.Some? then d.fabric else o.fabric)
    && x.policy == (if DefinesPolicy(m) then d.policy else o.policy)
    && x.topology == (if DefinesTopology(m) then d.topology else o.topology)
    && x.epoch == d.epoch && x.coordinator == d.coordinator
    && x.bootCount == d.bootCount && x.epochAdvances == d.epochAdvances
    && Alike(x.attempts, d.attempts)
    && x.fences == d.fences
    && x.idempotency == d.idempotency
    && (forall r :: r in x.attempts ==> r.createSeq <= BaseOf(m) + |EntriesOf(m)|)
  }

  /** The state `d`, kept under `limits`, as `x` replayed under other limits can know it: the index only if its bound is the same. */
  function KnownAs(d: DurableState, limits: Limits, x: DurableState, under: Limits): DurableState {
    if under.maxIdempotency == limits.maxIdempotency then d else d.(idempotency := x.idempotency)
  }

  /**
   * The medium describes `d`, which was kept under `limits`: replay succeeds exactly when no fence is
   * uncovered, and then rebuilds `d`.
   */
  ghost predicate DescribesFor(m: Medium, d: DurableState, limits: Limits, o: StoreOptions) {
    && (Fold(m, o).Some? <==> FenceFree(m))
    && (Fold(m, o).Some? ==> Near(Fold(m, o).value, KnownAs(d, limits, Fold(m, o).value, o.limits), m, o))
  }

  /** And so it does under any limits that hold the attempt table. */
  ghost predicate Describes(m: Medium, d: DurableState, limits: Limits) {
    && WellPlaced(m)
    && d.lastSeq == BaseOf(m) + |EntriesOf(m)|
    && (forall o: StoreOptions :: |d.attempts| <= o.limits.maxAttempts ==> DescribesFor(m, d, limits, o))
  }

  lemma LastIs(m: Medium)
    requires WellPlaced(m)
    ensures LastOf(BaseOf(m), EntriesOf(m)) == BaseOf(m) + |EntriesOf(m)|
  {}

  // ---- one more record ----

  lemma AppendedEntries(m: Medium, e: Entry)
    requires m.journal.Some?
    ensures var n := WithEntry(m, e);
            && n.snapshot == m.snapshot && Covered(n) == Covered(m) && BaseOf(n) == BaseOf(m)
            && EntriesOf(n) == EntriesOf(m) + [e]
            && (WellPlaced(m) && e.seqno == BaseOf(m) + |EntriesOf(m)| + 1 ==> WellPlaced(n))
  {
    var n := WithEntry(m, e);
    if WellPlaced(m) && e.seqno == BaseOf(m) + |EntriesOf(m)| + 1 {
      forall i | 0 <= i < |EntriesOf(n)| ensures EntriesOf(n)[i].seqno == BaseOf(n) + 1 + i {
        if i < |EntriesOf(m)| { assert EntriesOf(n)[i] == EntriesOf(m)[i]; }
      }
    }
  }

  lemma FoldAppends(m: Medium, e: Entry, o: StoreOptions)
    requires m.journal.Some? && WellPlaced(m) && e.seqno == BaseOf(m) + |EntriesOf(m)| + 1
    ensures Fold(WithEntry(m, e), o)
         == if Fold(m, o).None? then None else Replayed(Fold(m, o).value, e.record, e.seqno, o.limits)
  {
    AppendedEntries(m, e);
    LastIs(m);
    assert (EntriesOf(m) + [e])[..|EntriesOf(m)|] == EntriesOf(m);
    hide Replayed;
  }

  lemma FenceFreeAppends(m: Medium, e: Entry)
    requires m.journal.Some? && WellPlaced(m) && e.seqno == BaseOf(m) + |EntriesOf(m)| + 1
    ensures FenceFree(WithEntry(m, e)) <==> FenceFree(m) && !e.record.FencePut?
  {
    AppendedEntries(m, e);
    hide WellPlaced, WithEntry;
    assert Covered(m) <= BaseOf(m) + |EntriesOf(m)| by { PlacedCovers(m); }
    if FenceFree(WithEntry(m, e)) {
      assert e in EntriesOf(m) + [e];
    }
  }

  lemma PlacedCovers(m: Medium)
    requires WellPlaced(m)
    ensures Covered(m) <= BaseOf(m) + |EntriesOf(m)|
  {}

  lemma DefinesAppends(m: Medium, e: Entry)
    requires m.journal.Some?
    ensures DefinesPolicy(WithEntry(m, e)) <==> DefinesPolicy(m) || e.record.PolicyCommit?
    ensures DefinesTopology(WithEntry(m, e)) <==> DefinesTopology(m) || e.record.TopologyCommit?
  {
    AppendedEntries(m, e);
    assert e in EntriesOf(WithEntry(m, e));
    forall x | x in EntriesOf(m) ensures x in EntriesOf(WithEntry(m, e)) {}
  }

  /** A legal record; what a definition brings back is of no concern to replay. */
  ghost predicate Replayable(d: DurableState, h: History, rec: Record, limits: Limits) {
    rec.TopologyCommit? || Legal(d, h, rec, limits)
  }

  /** Replaying the record of a legal commit mirrors the commit. */
  lemma ReplayMirrors(x: DurableState, d: DurableState, h: History, rec: Record, m: Medium, o: StoreOptions)
    requires Inv(d, h) && Replayable(d, h, rec, o.limits) && m.journal.Some? && WellPlaced(m)
    requires d.lastSeq == BaseOf(m) + |EntriesOf(m)| && Near(x, d, m, o)
    ensures rec.FencePut? <==> Replayed(x, rec, d.lastSeq + 1, o.limits).None?
    ensures !rec.FencePut? ==> Near(Replayed(x, rec, d.lastSeq + 1, o.limits).value, After(d, rec, o.limits),
                                    WithEntry(m, Entry(d.lastSeq + 1, rec)), o)
  {
    hide Inv, DefinesPolicy, DefinesTopology, WellPlaced, RetainEntries, RetainFences, RetainAttempts, Upsert, Alike, LegalCreate, LegalUpdate,
      NothingReinstated, Takes;
    var e := Entry(d.lastSeq + 1, rec);
    AppendedEntries(m, e);
    DefinesAppends(m, e);
    match rec {
      case AttemptPut(kind, r) => PutMirrors(x, d, h, kind, r, m, o);
      case _ =>
    }
  }

  lemma PutMirrors(x: DurableState, d: DurableState, h: History, kind: PutKind, r: AttemptRecord, m: Medium, o: StoreOptions)
    requires Inv(d, h) && Legal(d, h, AttemptPut(kind, r), o.limits) && m.journal.Some?
    requires d.lastSeq == BaseOf(m) + |EntriesOf(m)| && Near(x, d, m, o)
    ensures var y := Replayed(x, AttemptPut(kind, r), d.lastSeq + 1, o.limits);
            var f := After(d, AttemptPut(kind, r), o.limits);
            && y.Some? && y.value == x.(attempts := Upsert(x.attempts, r))
            && Alike(y.value.attempts, f.attempts)
            && f == d.(attempts := f.attempts, lastSeq := d.lastSeq + 1, recordCount := d.recordCount + 1)
            && (forall t :: t in y.value.attempts ==> t.createSeq <= d.lastSeq + 1)
  {
    PutEffect(d, h, kind, r, o.limits);
    var t := Stored(kind, r, d.lastSeq + 1);
    AlikeUpsert(x.attempts, d.attempts, r, t);
    hide Inv, Upsert, LegalCreate, LegalUpdate;
    assert r.createSeq <= d.lastSeq by { PutPlaced(d, h, kind, r, o.limits); }
    UpsertFrom(x.attempts, r);
  }

  lemma PutPlaced(d: DurableState, h: History, kind: PutKind, r: AttemptRecord, limits: Limits)
    requires Legal(d, h, AttemptPut(kind, r), limits)
    ensures r.createSeq <= d.lastSeq
  {}

  lemma UpsertFrom(a: seq<AttemptRecord>, r: AttemptRecord)
    ensures forall t :: t in Upsert(a, r) ==> t == r || t in a
  {}

  /** A landed record carries the description to the state after its commit. */
  lemma AppendDescribes(m: Medium, d: DurableState, h: History, rec: Record, limits: Limits)
    requires Inv(d, h) && Replayable(d, h, rec, limits) && m.journal.Some? && Describes(m, d, limits)
    ensures Describes(WithEntry(m, Entry(d.lastSeq + 1, rec)), After(d, rec, limits), limits)
  {
    hide Inv, Replayable, Fold, Near, FenceFree, WellPlaced, WithEntry, DescribesFor;
    var e := Entry(d.lastSeq + 1, rec);
    var n := WithEntry(m, e);
    var f := After(d, rec, limits);
    AppendedEntries(m, e);
    TableGrows(d, h, rec, limits);
    forall o: StoreOptions | |f.attempts| <= o.limits.maxAttempts ensures DescribesFor(n, f, limits, o) {
      assert DescribesFor(m, d, limits, o);
      AppendDescribesFor(m, d, h, rec, limits, o);
    }
    assert f.lastSeq == d.lastSeq + 1;
  }

  /** A legal record takes nothing from the table, and so it is legal under any limits that hold the table afterwards. */
  lemma TableGrows(d: DurableState, h: History, rec: Record, limits: Limits)
    requires Replayable(d, h, rec, limits)
    ensures |d.attempts| <= |After(d, rec, limits).attempts|
    ensures forall under: Limits :: |After(d, rec, limits).attempts| <= under.maxAttempts ==> Replayable(d, h, rec, under)
  {
    hide LegalCreate, LegalUpdate, NothingReinstated, RetainAttempts, RetainFences, RetainEntries, Upsert, Lookup;
    if rec.AttemptPut? {
      PutEffect(d, h, rec.kind, rec.attempt, limits);
      var t := Stored(rec.kind, rec.attempt, d.lastSeq + 1);
      UpsertSize(d.attempts, t);
      UpdateFound(d, rec.kind, rec.attempt);
    }
  }

  lemma UpdateFound(d: DurableState, kind: PutKind, r: AttemptRecord)
    ensures LegalUpdate(d, r) ==> Lookup(d.attempts, r.subject, r.seqno).Some?
  {}

  lemma AppendDescribesFor(m: Medium, d: DurableState, h: History, rec: Record, limits: Limits, o: StoreOptions)
    requires Inv(d, h) && Replayable(d, h, rec, limits) && m.journal.Some? && WellPlaced(m) && d.lastSeq == BaseOf(m) + |EntriesOf(m)|
    requires DescribesFor(m, d, limits, o) && |After(d, rec, limits).attempts| <= o.limits.maxAttempts
    ensures DescribesFor(WithEntry(m, Entry(d.lastSeq + 1, rec)), After(d, rec, limits), limits, o)
  {
    hide Inv, Replayable, Fold, Near, FenceFree, WellPlaced, WithEntry, After, Replayed, KnownAs;
    var e := Entry(d.lastSeq + 1, rec);
    var n := WithEntry(m, e);
    FenceFreeAppends(m, e);
    FoldAppends(m, e, o);
    TableGrows(d, h, rec, limits);
    if Fold(m, o).Some? {
      var x := Fold(m, o).value;
      var known := KnownAs(d, limits, x, o.limits);
      KnownReads(d, h, rec, limits, x, o.limits);
      ReplayMirrors(x, known, h, rec, m, o);
      if !rec.FencePut? {
        var y := Replayed(x, rec, d.lastSeq + 1, o.limits).value;
        NearIndexed(y, After(known, rec, o.limits), n, o);
        KnownAfter(d, h, rec, limits, x, o.limits, y);
      }
    }
  }

  /** Neither the invariant nor what is legal reads the index. */
  lemma KnownReads(d: DurableState, h: History, rec: Record, limits: Limits, x: DurableState, under: Limits)
    requires Inv(d, h) && Replayable(d, h, rec, under)
    ensures var k := KnownAs(d, limits, x, under);
            && Inv(k, h) && Replayable(k, h, rec, under) && k.lastSeq == d.lastSeq
            && k == d.(idempotency := k.idempotency)
  {
    hide UniqueKeys, NothingReinstated;
  }

  lemma NearIndexed(x: DurableState, d: DurableState, m: Medium, o: StoreOptions)
    requires Near(x, d, m, o)
    ensures x.idempotency == d.idempotency
    ensures forall i :: Near(x.(idempotency := i), d.(idempotency := i), m, o)
  {
    hide Alike, DefinesPolicy, DefinesTopology;
  }

  /** The state after a commit, as replay knows it, is what the commit makes of the state as replay knew it. */
  lemma KnownAfter(d: DurableState, h: History, rec: Record, limits: Limits, x: DurableState, under: Limits, y: DurableState)
    requires Replayable(d, h, rec, limits) && Replayable(d, h, rec, under) && !rec.FencePut?
    requires y.idempotency == After(KnownAs(d, limits, x, under), rec, under).idempotency
    ensures KnownAs(After(d, rec, limits), limits, y, under) == After(KnownAs(d, limits, x, under), rec, under)
  {
    hide Upsert, RetainFences, LegalCreate, LegalUpdate, NothingReinstated;
    if rec.AttemptPut? {
      PutEffect(d, h, rec.kind, rec.attempt, limits);
      PutEffect(d, h, rec.kind, rec.attempt, under);
      var k := KnownAs(d, limits, x, under);
      assert After(k, rec, under).attempts == After(d, rec, under).attempts;
    }
  }

  // ---- compaction ----

  /** Entries at or below the watermark fold to the start. */
  lemma {:induction false} CoveredFolds(start: DurableState, covered: nat, base: nat, entries: seq<Entry>, limits: Limits)
    requires forall i :: 0 <= i < |entries| ==> entries[i].seqno == base + 1 + i
    requires base + |entries| <= covered
    ensures Replay(start, covered, base, entries, limits) == Some(start)
    decreases |entries|
  {
    if entries != [] {
      CoveredFolds(start, covered, base, entries[..|entries| - 1], limits);
    }
  }

  /** A snapshot of the described state: with the old journal still there, or a fresh one, the medium describes the same. */
  lemma SnapshotDescribes(m: Medium, d: DurableState, limits: Limits, j: Journal)
    requires Describes(m, d, limits) && Placed(d)
    requires (m.journal == Some(j)) || j == Journal(d.lastSeq, [])
    ensures Describes(Medium(Some(d), Some(j)), d, limits)
    ensures FenceFree(Medium(Some(d), Some(j)))
  {
    var n := Medium(Some(d), Some(j));
    forall o: StoreOptions ensures DescribesFor(n, d, limits, o) {
      CoveredFolds(d, d.lastSeq, j.base, j.entries, o.limits);
    }
  }

  /**
   * Compaction preserves meaning: folding the snapshot and only the records above its watermark
   * gives, piece for piece, what folding the whole journal from the start gives.
   */
  lemma {:induction false} SuffixFoldsAlike(start: DurableState, snap: DurableState, base: nat, entries: seq<Entry>, k: nat, limits: Limits)
    requires forall i :: 0 <= i < |entries| ==> entries[i].seqno == base + 1 + i
    requires k <= |entries| && snap.lastSeq == base + k && start.lastSeq <= base
    requires Replay(start, start.lastSeq, base, entries[..k], limits) == Some(snap.(lastSeq := start.lastSeq))
    ensures Replay(snap, snap.lastSeq, base, entries, limits).Some? <==> Replay(start, start.lastSeq, base, entries, limits).Some?
    ensures Replay(snap, snap.lastSeq, base, entries, limits).Some? ==>
              Replay(snap, snap.lastSeq, base, entries, limits).value.(lastSeq := start.lastSeq)
              == Replay(start, start.lastSeq, base, entries, limits).value
    decreases |entries|
  {
    if k == |entries| {
      assert entries[..k] == entries;
      CoveredFolds(snap, snap.lastSeq, base, entries, limits);
    } else {
      var n := |entries| - 1;
      assert entries[..n][..k] == entries[..k];
      SuffixFoldsAlike(start, snap, base, entries[..n], k, limits);
      if Replay(start, start.lastSeq, base, entries[..n], limits).Some? {
        ReplayedReads(Replay(snap, snap.lastSeq, base, entries[..n], limits).value, start.lastSeq, entries[n].record, entries[n].seqno, limits);
      }
    }
  }

  /** Replaying a record neither reads nor moves the state's own last sequence. */
  lemma ReplayedReads(d: DurableState, lastSeq: nat, rec: Record, seqno: nat, limits: Limits)
    ensures var y := Replayed(d, rec, seqno, limits);
            var z := Replayed(d.(lastSeq := lastSeq), rec, seqno, limits);
            (y.Some? <==> z.Some?) && (y.Some? ==> z.value == y.value.(lastSeq := lastSeq))
  {}

  // ---- other limits ----

  /** The replayed index depends on its own bound alone. */
  lemma {:induction false} IndexFolds(start: DurableState, other: DurableState, covered: nat, base: nat, entries: seq<Entry>, limits: Limits, under: Limits)
    requires start.idempotency == other.idempotency && limits.maxIdempotency == under.maxIdempotency
    requires Replay(start, covered, base, entries, limits).Some? && Replay(other, covered, base, entries, under).Some?
    ensures Replay(start, covered, base, entries, limits).value.idempotency == Replay(other, covered, base, entries, under).value.idempotency
    decreases |entries|
  {
    hide RetainAttempts, RetainFences, Upsert, RetainEntries;
    if entries != [] {
      IndexFolds(start, other, covered, base, entries[..|entries| - 1], limits, under);
    }
  }
}
