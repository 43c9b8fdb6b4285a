/** Values in the ranges of their types: what commits, compaction, replay and restarts keep of every state and record. */
module TypedStore {
  import opened Basics
  import opened Records
  import opened Lineage
  import opened Invariant
  import opened RecordCodec
  import opened Payloads
  import opened Protocol
  import Evidence
  import Retention
  import Snapshot
  import Sorting

  // ---- what is well typed ----

  predicate Named(k: LinkKey) { ValidName(k.fabric) && ValidName(k.link) }

  /** The subject is named, the alternate named or absent. */
  predicate TypedAttempt(r: AttemptRecord) {
    AttemptOk(r) && Named(r.subject) && (Named(r.replacement) || (r.replacement == NO_LINK && r.replacementGeneration == 0))
  }

  predicate TypedDecision(d: Decision) { DecisionOk(d) && Named(d.subject) && (d.hasReplacement ==> Named(d.replacement)) }

  predicate TypedPolicy(p: Policy) { PolicyOk(p) && ValidPolicy(p) }

  predicate TypedTopology(t: Topology) { TopologyOk(t) && TopologyFault(t).None? }

  predicate TypedEntry(e: IdempotencyEntry) { EntryOk(e) && Snapshot.EntryFits(e) }

  predicate TypedRecord(rec: Record) {
    match rec
    case PolicyCommit(p) => TypedPolicy(p)
    case TopologyCommit(t) => TypedTopology(t)
    case AttemptPut(_, r) => TypedAttempt(r)
    case DecisionCommit(d) => TypedDecision(d)
    case IdempotencyIndex(e) => TypedEntry(e)
    case _ => RecordOk(rec)
  }

  predicate TypedTables(d: Lineage.DurableState) {
    && (forall r :: r in d.attempts ==> TypedAttempt(r))
    && (forall f :: f in d.fences ==> FenceOk(f))
    && (forall e :: e in d.idempotency ==> TypedEntry(e))
  }

  /** Each row of a table took a record of its own. */
  predicate Sized(d: Lineage.DurableState, n: nat) { |d.attempts| <= n && |d.fences| <= n && |d.idempotency| <= n }

  predicate TypedDefinitions(d: Lineage.DurableState) {
    ValidName(d.fabric) && TypedPolicy(d.policy) && TypedTopology(d.topology)
  }

  predicate TypedCounters(d: Lineage.DurableState) {
    Long(d.epoch) && IsIncarnation(d.coordinator) && Long(d.bootCount) && Long(d.epochAdvances) && d.recordCount <= d.lastSeq
  }

  predicate TypedState(d: Lineage.DurableState) {
    TypedDefinitions(d) && TypedCounters(d) && TypedTables(d) && Long(d.lastSeq) && Sized(d, d.lastSeq)
  }

  predicate TypedJournal(j: Journal) {
    Long(j.base) && forall e :: e in j.entries ==> TypedRecord(e.record) && Long(e.seqno)
  }

  predicate TypedMedium(m: Medium) {
    (m.snapshot.Some? ==> TypedState(m.snapshot.value)) && (m.journal.Some? ==> TypedJournal(m.journal.value))
  }

  predicate TypedStoreState(s: Lineage.StoreState) { TypedState(s.d) && TypedMedium(s.medium) }

  lemma TypedIsOk(rec: Record)
    requires TypedRecord(rec)
    ensures RecordOk(rec)
  {
    hide AttemptOk, DecisionOk, TopologyOk, PolicyOk, EntryOk, FenceOk;
  }

  /** A well-typed state can be written as a snapshot and read back, as long as its tables are within the decoder's bound. */
  lemma TypedStateIsOk(d: Lineage.DurableState)
    requires TypedState(d) && Sized(d, Snapshot.MAX_ELEMENTS)
    ensures Snapshot.StateOk(d)
  {
    hide AttemptOk, TopologyOk, PolicyOk, EntryOk, FenceOk, ValidName, TopologyFault;
  }

  // ---- tables ----

  lemma UpsertTyped(a: seq<AttemptRecord>, r: AttemptRecord)
    requires TypedAttempt(r) && forall x :: x in a ==> TypedAttempt(x)
    ensures forall x :: x in Upsert(a, r) ==> TypedAttempt(x)
  {
    hide TypedAttempt;
  }

  lemma {:induction false} DropShrinks(a: seq<AttemptRecord>, max: nat)
    ensures |DropTerminal(a, max)| <= |a|
    decreases |a|
  {
    var i := FirstTerminal(a);
    if |a| > max && i < |a| { DropShrinks(a[..i] + a[i + 1..], max); }
  }

  lemma RetainedAttempts(a: seq<AttemptRecord>, max: nat)
    requires forall x :: x in a ==> TypedAttempt(x)
    ensures (forall x :: x in RetainAttempts(a, max) ==> TypedAttempt(x)) && |RetainAttempts(a, max)| <= |a|
  {
    hide TypedAttempt, DropTerminal, Sorting.Sort;
    Retention.RetentionKeepsLive(a, max);
    DropShrinks(Sorting.Sort(a, AttemptLess), max);
  }

  lemma RetainedFences(f: seq<FenceRecord>, max: nat)
    requires forall x :: x in f ==> FenceOk(x)
    ensures (forall x :: x in RetainFences(f, max) ==> FenceOk(x)) && |RetainFences(f, max)| <= |f|
  {
    hide FenceOk, Sorting.Sort;
    Sorting.SortHolds(f, FenceLess);
    var sorted := Sorting.Sort(f, FenceLess);
    forall x | x in sorted ensures x in f { assert x in multiset(sorted); }
  }

  lemma RetainedEntries(e: seq<IdempotencyEntry>, max: nat)
    requires forall x :: x in e ==> TypedEntry(x)
    ensures (forall x :: x in RetainEntries(e, max) ==> TypedEntry(x)) && |RetainEntries(e, max)| <= |e|
  {
    hide TypedEntry;
  }

  /** A put attempt, with or without retention. */
  lemma PutTables(d: Lineage.DurableState, r: AttemptRecord, max: nat, n: nat)
    requires TypedTables(d) && Sized(d, n) && TypedAttempt(r)
    ensures var t := Upsert(d.attempts, r);
            && TypedTables(d.(attempts := t)) && Sized(d.(attempts := t), n + 1)
            && TypedTables(d.(attempts := RetainAttempts(t, max))) && Sized(d.(attempts := RetainAttempts(t, max)), n + 1)
  {
    hide TypedAttempt, TypedEntry, FenceOk, Upsert, RetainAttempts;
    UpsertTyped(d.attempts, r);
    RetainedAttempts(Upsert(d.attempts, r), max);
  }

  lemma FenceTables(d: Lineage.DurableState, f: FenceRecord, max: nat, n: nat)
    requires TypedTables(d) && Sized(d, n) && FenceOk(f)
    ensures TypedTables(d.(fences := RetainFences(d.fences + [f], max))) && Sized(d.(fences := RetainFences(d.fences + [f], max)), n + 1)
  {
    hide TypedAttempt, TypedEntry, FenceOk, RetainFences;
    RetainedFences(d.fences + [f], max);
  }

  lemma EntryTables(d: Lineage.DurableState, e: IdempotencyEntry, max: nat, n: nat)
    requires TypedTables(d) && Sized(d, n) && TypedEntry(e)
    ensures TypedTables(d.(idempotency := RetainEntries(d.idempotency + [e], max)))
    ensures Sized(d.(idempotency := RetainEntries(d.idempotency + [e], max)), n + 1)
  {
    hide TypedAttempt, TypedEntry, FenceOk, RetainEntries;
    RetainedEntries(d.idempotency + [e], max);
  }

  // ---- records, live and replayed ----

  lemma StoredTyped(kind: PutKind, r: AttemptRecord, seqno: nat)
    requires TypedAttempt(r) && Long(seqno)
    ensures TypedAttempt(Stored(kind, r, seqno))
  {
    hide AuthorityOk, ValidName, ReasonsOk;
  }

  lemma StampedTyped(f: FenceRecord, seqno: nat)
    requires FenceOk(f) && Long(seqno)
    ensures FenceOk(f.(seqno := seqno))
  {
    hide ValidName;
  }

  /** All but the position: what a record leaves of a well-typed state. */
  predicate TypedBody(d: Lineage.DurableState) {
    TypedDefinitions(d) && TypedTables(d) && Long(d.epoch) && IsIncarnation(d.coordinator) && Long(d.bootCount) && Long(d.epochAdvances)
  }

  lemma EffectTyped(d: Lineage.DurableState, rec: Record, seqno: nat, limits: Limits, n: nat)
    requires TypedBody(d) && Sized(d, n) && TypedRecord(rec) && Long(seqno)
    ensures TypedBody(Effect(d, rec, seqno, limits)) && Sized(Effect(d, rec, seqno, limits), n + 1)
    ensures Effect(d, rec, seqno, limits).recordCount == d.recordCount
  {
    hide TypedDefinitions, TypedTables, TypedAttempt, TypedEntry, FenceOk, DecisionOk, Upsert, RetainAttempts, RetainFences, RetainEntries;
    match rec
    case AttemptPut(kind, r) =>
      StoredTyped(kind, r, seqno);
      PutTables(d, Stored(kind, r, seqno), limits.maxAttempts, n);
      SameDefinitions(d, Effect(d, rec, seqno, limits));
    case FencePut(f) =>
      StampedTyped(f, seqno);
      FenceTables(d, f.(seqno := seqno), limits.maxFences, n);
      SameDefinitions(d, Effect(d, rec, seqno, limits));
    case IdempotencyIndex(e) =>
      EntryTables(d, e, limits.maxIdempotency, n);
      SameDefinitions(d, Effect(d, rec, seqno, limits));
    case Boot(_, _, _, _) =>
      SameDefinitions(d, Effect(d, rec, seqno, limits));
      SameTables(d, Effect(d, rec, seqno, limits));
    case PolicyCommit(_) =>
      SameTables(d, Effect(d, rec, seqno, limits));
      Redefined(d, Effect(d, rec, seqno, limits));
    case TopologyCommit(_) =>
      SameTables(d, Effect(d, rec, seqno, limits));
      Redefined(d, Effect(d, rec, seqno, limits));
    case _ =>
  }

  lemma ReplayedTyped(d: Lineage.DurableState, rec: Record, seqno: nat, limits: Limits, n: nat)
    requires TypedBody(d) && Sized(d, n) && TypedRecord(rec) && Replayed(d, rec, seqno, limits).Some?
    ensures var e := Replayed(d, rec, seqno, limits).value; TypedBody(e) && Sized(e, n + 1) && e.recordCount == d.recordCount
  {
    hide TypedDefinitions, TypedTables, TypedAttempt, TypedEntry, FenceOk, DecisionOk, Upsert, RetainAttempts, RetainFences, RetainEntries;
    var e := Replayed(d, rec, seqno, limits).value;
    match rec
    case AttemptPut(kind, r) =>
      PutTables(d, r, limits.maxAttempts, n);
      SameDefinitions(d, e);
    case FencePut(f) =>
      FenceTables(d, f, limits.maxFences, n);
      SameDefinitions(d, e);
    case IdempotencyIndex(x) =>
      EntryTables(d, x, limits.maxIdempotency, n);
      SameDefinitions(d, e);
    case Boot(_, _, _, _) =>
      SameDefinitions(d, e);
      SameTables(d, e);
    case PolicyCommit(_) =>
      SameTables(d, e);
      Redefined(d, e);
    case TopologyCommit(_) =>
      SameTables(d, e);
      Redefined(d, e);
    case _ =>
  }

  lemma SameDefinitions(d: Lineage.DurableState, e: Lineage.DurableState)
    requires TypedDefinitions(d) && e.fabric == d.fabric && e.policy == d.policy && e.topology == d.topology
    ensures TypedDefinitions(e)
  {}

  lemma SameTables(d: Lineage.DurableState, e: Lineage.DurableState)
    requires TypedTables(d) && e.attempts == d.attempts && e.fences == d.fences && e.idempotency == d.idempotency
    ensures TypedTables(e)
  {}

  lemma Redefined(d: Lineage.DurableState, e: Lineage.DurableState)
    requires TypedDefinitions(d) && e.fabric == d.fabric
    requires (e.policy == d.policy && TypedTopology(e.topology)) || (e.topology == d.topology && TypedPolicy(e.policy))
    ensures TypedDefinitions(e)
  {}

  lemma Repositioned(d: Lineage.DurableState, e: Lineage.DurableState, lastSeq: nat)
    requires TypedBody(e) && Sized(e, lastSeq) && Long(lastSeq) && d == e.(lastSeq := lastSeq, recordCount := d.recordCount) && d.recordCount <= lastSeq
    ensures TypedState(d)
  {
    hide TypedAttempt, TypedEntry, FenceOk, TypedPolicy, TypedTopology;
  }

  lemma AfterTyped(d: Lineage.DurableState, rec: Record, limits: Limits)
    requires TypedState(d) && TypedRecord(rec) && Long(d.lastSeq + 1)
    ensures TypedState(After(d, rec, limits))
  {
    hide TypedDefinitions, TypedTables, TypedRecord, Effect;
    EffectTyped(d, rec, d.lastSeq + 1, limits, d.lastSeq);
    Repositioned(After(d, rec, limits), Effect(d, rec, d.lastSeq + 1, limits), d.lastSeq + 1);
  }

  // ---- the store ----

  lemma EntryLands(m: Medium, e: Entry)
    requires TypedMedium(m) && TypedRecord(e.record) && Long(e.seqno)
    ensures TypedMedium(WithEntry(m, e))
  {
    hide TypedState, TypedRecord;
  }

  /** A commit of a well-typed record, however it ends. */
  lemma CommitTyped(s: Lineage.StoreState, rec: Record)
    requires TypedStoreState(s) && TypedRecord(rec)
    ensures TypedStoreState(Commit(s, rec)) && Commit(s, rec).d.lastSeq >= s.d.lastSeq
    ensures !Commit(s, rec).failed ==> Long(Commit(s, rec).d.lastSeq)
  {
    hide TypedState, TypedRecord, TypedMedium, WithEntry, Effect;
    LongPosition(s.d);
    if !s.failed && s.d.lastSeq + 1 < U64_LIMIT {
      AfterTyped(s.d, rec, s.limits);
      EntryLands(s.medium, Entry(s.d.lastSeq + 1, rec));
    }
  }

  lemma LongPosition(d: Lineage.DurableState)
    requires TypedState(d)
    ensures Long(d.lastSeq)
  {}

  lemma SnapshotTyped(s: Lineage.StoreState, j: Option<Journal>)
    requires TypedState(s.d) && (j.Some? ==> TypedJournal(j.value))
    ensures TypedMedium(Medium(Some(s.d), j))
  {}

  /** A compaction, however far it gets. */
  lemma CheckpointTyped(s: Lineage.StoreState)
    requires TypedStoreState(s)
    ensures TypedStoreState(Lineage.Checkpoint(s).0)
  {
    hide TypedState, TypedRecord, Commit;
    LongPosition(s.d);
    SnapshotTyped(s, s.medium.journal);
    SnapshotTyped(s, Some(Journal(s.d.lastSeq, [])));
    if !s.failed && s.fate.snapshot.Kept? {
      var rotated := s.(medium := Medium(Some(s.d), Some(Journal(s.d.lastSeq, []))), sinceSnapshot := 0);
      var mark := CheckpointMark(s.d.lastSeq, s.d.recordCount);
      assert TypedRecord(mark) by { MarkTyped(mark); }
      CommitTyped(rotated, mark);
    }
  }

  lemma MarkTyped(mark: Record)
    requires mark.CheckpointMark?
    ensures TypedRecord(mark)
  {}

  // ---- opening ----

  predicate TypedOptions(o: Options) {
    (o.fabric == [] || ValidName(o.fabric)) && PolicyOk(o.policy) && TopologyOk(o.topology)
  }

  lemma {:induction false} ReplayTyped(start: Lineage.DurableState, base: nat, entries: seq<Entry>, limits: Limits)
    requires TypedState(start) && TypedJournal(Journal(base, entries))
    requires Replay(start, start.lastSeq, base, entries, limits).Some?
    ensures var d := Replay(start, start.lastSeq, base, entries, limits).value;
            TypedBody(d) && Sized(d, Max(LastOf(base, entries), start.lastSeq)) && d.recordCount == start.recordCount && d.fabric == start.fabric
    decreases |entries|
  {
    hide TypedRecord, TypedDefinitions, TypedTables, Replayed;
    if entries != [] {
      var n := |entries| - 1;
      var e := entries[n];
      FrontTyped(base, entries);
      ReplayTyped(start, base, entries[..n], limits);
      var before := Replay(start, start.lastSeq, base, entries[..n], limits).value;
      if e.seqno > start.lastSeq {
        ReplayedTyped(before, e.record, e.seqno, limits, Max(LastOf(base, entries[..n]), start.lastSeq));
        ReplayKeepsFabric(before, e.record, e.seqno, limits);
      }
    }
  }

  lemma ReplayKeepsFabric(d: Lineage.DurableState, rec: Record, seqno: nat, limits: Limits)
    requires Replayed(d, rec, seqno, limits).Some?
    ensures Replayed(d, rec, seqno, limits).value.fabric == d.fabric
  {}

  lemma FrontTyped(base: nat, entries: seq<Entry>)
    requires entries != [] && TypedJournal(Journal(base, entries))
    ensures TypedJournal(Journal(base, entries[..|entries| - 1])) && TypedRecord(entries[|entries| - 1].record)
    ensures Long(LastOf(base, entries))
  {
    hide TypedRecord;
    assert entries[|entries| - 1] in entries;
  }

  lemma BlankTyped(o: Options)
    requires TypedOptions(o) && OptionsFault(o).None?
    ensures TypedState(Blank(StoreOptionsOf(o)))
  {
    hide PolicyOk, TopologyOk, TopologyFault, ValidPolicy;
  }

  /** What opening restores, and the medium it leaves. */
  lemma OpenStoreTyped(m: Medium, o: Options, fate: Fate)
    requires TypedMedium(m) && TypedOptions(o) && OptionsFault(o).None?
    ensures TypedMedium(OpenStore(m, StoreOptionsOf(o), fate).1)
    ensures OpenStore(m, StoreOptionsOf(o), fate).0.Restored? ==> TypedState(OpenStore(m, StoreOptionsOf(o), fate).0.state)
  {
    hide TypedState, TypedRecord, Replay, TypedOptions, OptionsFault;
    var so := StoreOptionsOf(o);
    var start := Start(m, so);
    BlankTyped(o);
    LongPosition(start);
    if m.journal.Some? {
      var j := m.journal.value;
      var folded := Replay(start, start.lastSeq, j.base, j.entries, so.limits);
      if folded.Some? {
        ReplayTyped(start, j.base, j.entries, so.limits);
        LastIsLong(j);
        var last := Max(LastOf(j.base, j.entries), start.lastSeq);
        CountedStart(start);
        Repositioned(folded.value.(lastSeq := last), folded.value, last);
      }
    }
  }

  lemma CountedStart(d: Lineage.DurableState)
    requires TypedState(d)
    ensures d.recordCount <= d.lastSeq
  {}

  lemma LastIsLong(j: Journal)
    requires TypedJournal(j)
    ensures Long(LastOf(j.base, j.entries))
  {
    hide TypedRecord;
  }

  // ---- the restart fence ----

  lemma CutTyped(r: AttemptRecord)
    requires TypedAttempt(r)
    ensures TypedAttempt(Cut(r))
  {
    hide AuthorityOk, ValidName;
    ReasonAdded(r.reasons, Because(InterruptionReason(r.phase)));
  }

  /** One more reason keeps the list within its bounds. */
  lemma ReasonAdded(reasons: seq<Reason>, r: Reason)
    requires ReasonsOk(reasons, MAX_ATTEMPT_REASONS) && r.code < Reasons.REASON_CODE_COUNT && |r.detail| <= MAX_REASON_DETAIL
    ensures ReasonsOk(AddReason(reasons, r), MAX_ATTEMPT_REASONS)
  {}

  lemma FenceTyped(kind: FenceKind, r: AttemptRecord, epoch: nat, incarnation: Incarnation)
    requires TypedAttempt(r) && Long(epoch) && IsIncarnation(incarnation)
    ensures TypedRecord(FencePut(FenceRecord(kind, r.subject, r.generation, r.seqno, epoch, incarnation, 0, [])))
  {
    hide AuthorityOk, ValidName, ReasonsOk;
  }

  lemma InterruptTyped(s: Lineage.StoreState, r: AttemptRecord, epoch: nat, incarnation: Incarnation)
    requires TypedStoreState(s) && TypedAttempt(r) && Long(epoch) && IsIncarnation(incarnation)
    ensures TypedStoreState(InterruptOne(s, r, epoch, incarnation))
  {
    hide TypedStoreState, TypedAttempt, Commit, Cut, FenceOk;
    CutTyped(r);
    CommitTyped(s, AttemptPut(Interruption, Cut(r)));
    FenceTyped(PreRestartAuthority, r, epoch, incarnation);
    var put := Commit(s, AttemptPut(Interruption, Cut(r)));
    CommitTyped(put, FencePut(FenceRecord(PreRestartAuthority, r.subject, r.generation, r.seqno, epoch, incarnation, 0, [])));
  }

  lemma {:induction false} FenceRestartTyped(s: Lineage.StoreState, rest: seq<AttemptRecord>, epoch: nat, incarnation: Incarnation)
    requires TypedStoreState(s) && (forall r :: r in rest ==> TypedAttempt(r)) && Long(epoch) && IsIncarnation(incarnation)
    ensures TypedStoreState(FenceRestart(s, rest, epoch, incarnation))
    decreases |rest|
  {
    hide TypedStoreState, TypedAttempt, InterruptOne;
    if rest != [] && !s.failed {
      if !Terminal(rest[0].phase) { InterruptTyped(s, rest[0], epoch, incarnation); }
      FenceRestartTyped(if Terminal(rest[0].phase) then s else InterruptOne(s, rest[0], epoch, incarnation), rest[1..], epoch, incarnation);
    }
  }

  lemma BootRecordTyped(d: Lineage.DurableState, incarnation: Incarnation)
    requires IsIncarnation(incarnation) && Long(d.epoch + 1) && Long(d.bootCount + 1) && Long(d.epochAdvances + 1)
    ensures TypedRecord(BootRecord(d, incarnation))
  {}

  lemma AttemptsTyped(d: Lineage.DurableState)
    requires TypedState(d)
    ensures forall r :: r in d.attempts ==> TypedAttempt(r)
  {
    hide TypedAttempt;
  }

  /** Booting over a well-typed state. */
  lemma BootTyped(o: Options, incarnation: Incarnation, s: Lineage.StoreState)
    requires TypedStoreState(s) && IsIncarnation(incarnation)
    ensures match BootStore(o, incarnation, s)
            case Opened(e, _) =>
              && TypedStoreState(e.store) && Long(e.epoch) && e.incarnation == incarnation && e.options == o && e.tick == 0
              && e.book == Evidence.EMPTY_BOOK
            case NotOpened(t, _, _) => TypedStoreState(t)
  {
    hide TypedStoreState, TypedAttempt, Commit, FenceRestart, TypedRecord;
    if s.d.epoch + 1 < U64_LIMIT && s.d.bootCount + 1 < U64_LIMIT && s.d.epochAdvances + 1 < U64_LIMIT {
      BootRecordTyped(s.d, incarnation);
      CommitTyped(s, BootRecord(s.d, incarnation));
      var booted := Commit(s, BootRecord(s.d, incarnation));
      StoreAttempts(booted);
      FenceRestartTyped(booted, booted.d.attempts, s.d.epoch + 1, incarnation);
    }
  }

  lemma StoreAttempts(s: Lineage.StoreState)
    requires TypedStoreState(s)
    ensures forall r :: r in s.d.attempts ==> TypedAttempt(r)
  {
    hide TypedState, TypedMedium;
    AttemptsTyped(s.d);
  }

  /** Opening an engine over a well-typed medium, however it ends. */
  lemma OpenTyped(o: Options, incarnation: Incarnation, was: Lineage.StoreState, fate: Fate)
    requires TypedMedium(was.medium) && TypedOptions(o) && IsIncarnation(incarnation)
    ensures match OpenEngine(o, incarnation, was, fate)
            case Opened(e, _) =>
              && OptionsFault(o).None? && TypedStoreState(e.store) && Long(e.epoch) && e.incarnation == incarnation && e.options == o && e.tick == 0
              && e.book == Evidence.EMPTY_BOOK
            case NotOpened(t, _, _) => TypedMedium(t.medium)
  {
    hide TypedState, TypedMedium, TypedOptions, OptionsFault, OpenStore, BootStore, FenceRestart;
    if OptionsFault(o).None? {
      OpenStoreTyped(was.medium, o, fate);
      var (restored, medium) := OpenStore(was.medium, StoreOptionsOf(o), fate);
      if restored.Restored? {
        BootTyped(o, incarnation, Lineage.StoreState(restored.state, restored.state, medium, false, 0, o.limits.store, fate));
      }
    }
  }
}
