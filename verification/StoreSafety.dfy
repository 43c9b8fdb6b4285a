/** The store under commits, failures and compaction: both its states stay sound and its medium keeps describing them. */
module StoreSafety {
  import opened Basics
  import opened Records
  import opened Lineage
  import opened Table
  import opened Invariant
  import opened Lifecycle
  import opened Refinement

  ghost predicate StoreInv(s: StoreState, h: History) {
    && Inv(s.d, h) && Inv(s.disk, h)
    && |s.d.attempts| <= s.limits.maxAttempts && |s.disk.attempts| <= s.limits.maxAttempts
    && (!s.failed ==> s.disk == s.d && s.medium.journal.Some?)
    && Describes(s.medium, s.disk, s.limits)
  }

  /** From `s` under `h` the store got soundly to `t` under `k`. */
  ghost predicate Safe(s: StoreState, h: History, t: StoreState, k: History) {
    && StoreInv(t, k)
    && Evolves(s.disk, h, t.disk, k)
    && (s.failed ==> t.failed)
    && t.limits == s.limits
  }

  lemma SafeOn(s: StoreState, h: History, t: StoreState, k: History, u: StoreState, m: History)
    requires Safe(s, h, t, k) && Safe(t, k, u, m)
    ensures Safe(s, h, u, m)
  {
    hide StoreInv, Evolves;
    EvolvesOn(s.disk, h, t.disk, k, u.disk, m);
  }

  lemma SafeSelf(s: StoreState, h: History)
    requires StoreInv(s, h)
    ensures Safe(s, h, s, h)
    ensures Grow(h, s.disk) == h
  {
    EvolvesSelf(s.disk, h);
    GrowSame(s.disk, h);
  }

  /** More history does no harm. */
  lemma InvMore(d: DurableState, h: History, k: History)
    requires Inv(d, h) && h.used <= k.used && h.budget <= k.budget
    ensures Inv(d, k)
  {
    hide Pairs, CountOf, SeqnosOf, Led, Numbered, EpochBounded, Placed, UniqueKeys;
    forall subject, generation ensures CountOf(d.attempts, subject, generation) <= k.budget {
      assert CountOf(d.attempts, subject, generation) <= h.budget;
    }
  }

  predicate Installs(rec: Record) { rec.PolicyCommit? || rec.TopologyCommit? }

  lemma GrowReads(h: History, d: DurableState, e: DurableState)
    requires d.topology == e.topology && d.policy == e.policy
    ensures Grow(h, d) == Grow(h, e)
  {}

  lemma KeepsDefinitions(d: DurableState, rec: Record, limits: Limits)
    requires !Installs(rec)
    ensures After(d, rec, limits).topology == d.topology && After(d, rec, limits).policy == d.policy
  {}

  /**
   * A commit, however it ends: a legal record leaves both the live and the described state sound,
   * and what the medium describes has moved by that record or not at all.
   */
  lemma CommitSafe(s: StoreState, h: History, rec: Record)
    requires StoreInv(s, h)
    requires !s.failed ==> Legal(s.d, h, rec, s.limits)
    ensures Safe(s, h, Commit(s, rec), Grow(h, Commit(s, rec).disk))
    ensures !Installs(rec) ==> Grow(h, Commit(s, rec).disk) == h
  {
    hide Inv, Legal, Evolves, Describes, After, Grow;
    var t := Commit(s, rec);
    SafeSelf(s, h);
    if !s.failed && s.d.lastSeq + 1 < U64_LIMIT && (s.fate.room > 0 || s.fate.lands) {
      CommitKeeps(s.d, h, rec, s.limits);
      CommitEvolves(s.d, h, rec, s.limits);
      AppendDescribes(s.medium, s.d, h, rec, s.limits);
      TableFits(s.d, h, rec, s.limits);
      GrowGrows(h, t.disk);
      InvMore(s.d, h, Grow(h, t.disk));
      if !Installs(rec) {
        KeepsDefinitions(s.d, rec, s.limits);
        GrowReads(h, s.d, t.disk);
      }
    }
  }

  lemma GrowGrows(h: History, d: DurableState)
    ensures h.used <= Grow(h, d).used && h.budget <= Grow(h, d).budget
  {}

  lemma TableFits(d: DurableState, h: History, rec: Record, limits: Limits)
    requires Legal(d, h, rec, limits) && |d.attempts| <= limits.maxAttempts
    ensures |After(d, rec, limits).attempts| <= limits.maxAttempts
  {
    if rec.AttemptPut? { PutEffect(d, h, rec.kind, rec.attempt, limits); }
  }

  /** The next `n` commits succeed. */
  predicate Works(s: StoreState, n: nat) {
    !s.failed && s.fate.room >= n && s.d.lastSeq + n < U64_LIMIT
  }

  lemma CommitWorks(s: StoreState, rec: Record, n: nat)
    requires Works(s, n + 1)
    ensures var t := Commit(s, rec);
            && Works(t, n) && t.d == After(s.d, rec, s.limits) && t.disk == t.d && t.limits == s.limits
            && t.fate == s.fate.(room := s.fate.room - 1) && t.d.lastSeq == s.d.lastSeq + 1
  {}

  /** What authority is judged by. */
  predicate SameView(d: DurableState, e: DurableState) {
    d.attempts == e.attempts && d.policy == e.policy && d.topology == e.topology && d.epoch == e.epoch && d.coordinator == e.coordinator
  }

  predicate Bookkeeping(rec: Record) {
    rec.DecisionCommit? || rec.IdempotencyIndex? || rec.CheckpointMark? || rec.ShutdownMark?
  }

  /** Decisions, index entries and marks leave the view alone. */
  lemma BookkeepingSafe(s: StoreState, h: History, rec: Record)
    requires StoreInv(s, h) && Bookkeeping(rec)
    ensures Safe(s, h, Commit(s, rec), h)
    ensures SameView(s.d, Commit(s, rec).d)
  {
    hide StoreInv, Safe, Grow, RetainEntries, NothingReinstated, LegalCreate, LegalUpdate, WithEntry;
    CommitSafe(s, h, rec);
  }

  /** Compaction, however far it gets, changes nothing but the medium and the position. */
  lemma CheckpointSafe(s: StoreState, h: History)
    requires StoreInv(s, h)
    ensures Safe(s, h, Checkpoint(s).0, h)
    ensures SameView(s.d, Checkpoint(s).0.d)
  {
    SafeSelf(s, h);
    if !s.failed && !s.fate.snapshot.SnapshotLost? {
      SnapshotDescribes(s.medium, s.d, s.limits, s.medium.journal.value);
      SnapshotDescribes(s.medium, s.d, s.limits, Journal(s.d.lastSeq, []));
      var rotated := s.(medium := Medium(Some(s.d), Some(Journal(s.d.lastSeq, []))), sinceSnapshot := 0);
      hide Inv, Describes, Evolves;
      assert StoreInv(rotated, h);
      if s.fate.snapshot.Kept? {
        BookkeepingSafe(rotated, h, CheckpointMark(s.d.lastSeq, s.d.recordCount));
        assert Evolves(s.disk, h, rotated.disk, h);
      }
    }
  }
}
