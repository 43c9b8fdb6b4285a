/** What every durable commit keeps: the inductive invariant behind the single winner. */
module Invariant {
  import opened Basics
  import opened Records
  import opened Lineage
  import opened Table

  /** A link generation. */
  datatype Pair = Pair(subject: LinkKey, generation: nat)

  /** What the run remembers besides the state: every pair ever defined, and the largest budget any policy allowed. */
  datatype History = History(used: set<Pair>, budget: nat)

  function Pairs(t: Topology): set<Pair> {
    set x | x in t.links && Defines(t, x.link, x.generation) :: Pair(x.link, x.generation)
  }

  lemma PairsMeans(t: Topology, subject: LinkKey, generation: nat)
    ensures Pair(subject, generation) in Pairs(t) <==> Defines(t, subject, generation)
  {
    if Defines(t, subject, generation) {
      var x := Find(t.links, subject).value;
      assert x in t.links && Pair(x.link, x.generation) == Pair(subject, generation);
    }
  }

  function Grow(h: History, d: DurableState): History {
    History(h.used + Pairs(d.topology), Max(h.budget, d.policy.maxAttempts))
  }

  /** Every pair that `t` newly defines was never defined before. */
  ghost predicate NothingReinstated(h: History, old_: Topology, t: Topology) {
    Pairs(t) * h.used <= Pairs(old_)
  }

  predicate InFlightOrCut(p: Phase) {
    p.Evaluated? || p.Authorized? || p.Acknowledged? || p.Verified? || p.Interrupted?
  }

  /**
   * An attempt that stands in the way of another of its pair: in flight, interrupted, or
   * committed under the current epoch and coordinator.
   */
  predicate Occupies(d: DurableState, r: AttemptRecord) {
    InFlightOrCut(r.phase) || Active(d, r)
  }

  // ---- the invariant ----

  /** An attempt that occupies its pair has the pair's largest sequence. */
  ghost predicate Led(d: DurableState) {
    forall r, x :: r in d.attempts && x in d.attempts && Occupies(d, r) && SamePair(r, x) ==> x.seqno <= r.seqno
  }

  ghost predicate EpochBounded(d: DurableState) {
    forall r :: r in d.attempts ==> r.authority.epoch <= d.epoch
  }

  /** The sequences of a current pair are exactly 1 to their number. */
  ghost predicate Numbered(d: DurableState) {
    forall p :: p in Pairs(d.topology) ==>
      SeqnosOf(d.attempts, p.subject, p.generation) == UpTo(CountOf(d.attempts, p.subject, p.generation))
  }

  ghost predicate Known(d: DurableState, h: History) {
    && Pairs(d.topology) <= h.used
    && forall r :: r in d.attempts ==> Pair(r.subject, r.generation) in h.used
  }

  ghost predicate Budgeted(d: DurableState, h: History) {
    && d.policy.maxAttempts <= h.budget
    && forall subject, generation :: CountOf(d.attempts, subject, generation) <= h.budget
  }

  ghost predicate Placed(d: DurableState) {
    forall r :: r in d.attempts ==> r.createSeq <= d.lastSeq
  }

  ghost predicate Inv(d: DurableState, h: History) {
    && UniqueKeys(d.attempts) && Led(d) && EpochBounded(d) && Numbered(d) && Known(d, h) && Budgeted(d, h) && Placed(d)
  }

  // ---- what a legal commit is ----

  /** The lifecycle's order. */
  function Rank(r: AttemptRecord): nat {
    match r.phase
    case Evaluated => 0
    case Authorized => 1
    case Acknowledged => 2
    case Verified => 3
    case Interrupted => if r.revalidated then 5 else 4
    case Committed => 6
    case _ => 7
  }

  const TOP_RANK: nat := 7

  /** The attempt is final for its pair: cut off, and revalidation could not tell whether it took effect. */
  predicate Stuck(r: AttemptRecord) { r.phase.Interrupted? && r.revalidated }

  predicate Climbs(r: AttemptRecord, t: AttemptRecord) { Rank(r) < Rank(t) && !Stuck(r) }

  /** The table takes an attempt under this key without passing its bound. */
  predicate Takes(a: seq<AttemptRecord>, subject: LinkKey, seqno: nat, max: nat) {
    |a| + (if Lookup(a, subject, seqno).Some? then 0 else 1) <= max
  }

  ghost predicate LegalCreate(d: DurableState, r: AttemptRecord) {
    && Defines(d.topology, r.subject, r.generation)
    && r.seqno == CountOf(d.attempts, r.subject, r.generation) + 1
    && r.seqno <= d.policy.maxAttempts
    && r.authority.epoch <= d.epoch
    && r.createSeq == 0
    && (forall x :: x in d.attempts && SamePair(x, r) ==> !Occupies(d, x))
  }

  ghost predicate LegalUpdate(d: DurableState, r: AttemptRecord) {
    var was := Lookup(d.attempts, r.subject, r.seqno);
    && was.Some? && was.value.generation == r.generation
    && (Occupies(d, r) ==> Occupies(d, was.value))
    && r.authority.epoch <= d.epoch
    && Climbs(was.value, r)
    && r.createSeq <= d.lastSeq
  }

  ghost predicate Legal(d: DurableState, h: History, rec: Record, limits: Limits) {
    match rec
    case Boot(epoch, _, _, _) => epoch > d.epoch
    case TopologyCommit(t) => NothingReinstated(h, d.topology, t)
    case AttemptPut(kind, r) =>
      PutAllowed(kind, r.phase)
      && if kind.Create? then LegalCreate(d, r) && Takes(d.attempts, r.subject, r.seqno, limits.maxAttempts)
         else LegalUpdate(d, r) && |d.attempts| <= limits.maxAttempts
    case FencePut(f) => f.seqno == 0
    case _ => true
  }

  /** The record as it is stored at its position. */
  function Stored(kind: PutKind, r: AttemptRecord, seqno: nat): AttemptRecord {
    if kind.Create? then r.(createSeq := seqno, updateSeq := seqno) else r.(updateSeq := seqno)
  }

  /** A legal put neither overflows the table nor evicts. */
  lemma PutEffect(d: DurableState, h: History, kind: PutKind, r: AttemptRecord, limits: Limits)
    requires Legal(d, h, AttemptPut(kind, r), limits)
    ensures After(d, AttemptPut(kind, r), limits)
         == d.(attempts := Upsert(d.attempts, Stored(kind, r, d.lastSeq + 1)), lastSeq := d.lastSeq + 1, recordCount := d.recordCount + 1)
    ensures |Upsert(d.attempts, Stored(kind, r, d.lastSeq + 1))| <= limits.maxAttempts
  {
    UpsertSize(d.attempts, Stored(kind, r, d.lastSeq + 1));
  }

  lemma PairSeqnoFresh(d: DurableState, h: History, r: AttemptRecord)
    requires Inv(d, h) && LegalCreate(d, r)
    ensures forall x :: x in d.attempts && SamePair(x, r) ==> 1 <= x.seqno < r.seqno
  {
    PairsMeans(d.topology, r.subject, r.generation);
    assert Pair(r.subject, r.generation) in Pairs(d.topology);
    forall x | x in d.attempts && SamePair(x, r) ensures 1 <= x.seqno < r.seqno {
      assert x.seqno in SeqnosOf(d.attempts, r.subject, r.generation);
    }
  }

  lemma UpdateLed(d: DurableState, h: History, r: AttemptRecord, e: DurableState)
    requires Inv(d, h) && LegalUpdate(d, r) && e.attempts == Upsert(d.attempts, r)
    requires e.epoch == d.epoch && e.coordinator == d.coordinator
    ensures Led(e)
  {
    UpsertMembers(d.attempts, r);
    LookupSome(d.attempts, r.subject, r.seqno);
    hide Upsert, Lookup;
    var was := Lookup(d.attempts, r.subject, r.seqno).value;
    assert was in d.attempts && SamePair(was, r) && was.seqno == r.seqno;
  }

  lemma OneGeneration(t: Topology, p: Pair, q: Pair)
    requires p in Pairs(t) && q in Pairs(t) && p.subject == q.subject
    ensures p == q
  {
    PairsMeans(t, p.subject, p.generation);
    PairsMeans(t, q.subject, q.generation);
  }

  /** A legal creation replaces, if anything, a record of a generation that was left. */
  lemma NewKey(d: DurableState, h: History, r: AttemptRecord)
    requires Inv(d, h) && LegalCreate(d, r)
    ensures Lookup(d.attempts, r.subject, r.seqno).Some? ==> Lookup(d.attempts, r.subject, r.seqno).value.generation != r.generation
  {
    PairSeqnoFresh(d, h, r);
    LookupSome(d.attempts, r.subject, r.seqno);
  }

  lemma UpdateNumbered(d: DurableState, h: History, r: AttemptRecord, e: DurableState)
    requires Inv(d, h) && LegalUpdate(d, r) && e.attempts == Upsert(d.attempts, r) && e.topology == d.topology
    ensures Numbered(e)
    ensures forall subject, generation :: CountOf(e.attempts, subject, generation) == CountOf(d.attempts, subject, generation)
  {
    hide Upsert, Lookup, CountOf;
    LookupSome(d.attempts, r.subject, r.seqno);
    forall subject, generation ensures CountOf(e.attempts, subject, generation) == CountOf(d.attempts, subject, generation) {
      UpsertCounts(d.attempts, r, subject, generation);
    }
    forall p | p in Pairs(e.topology)
      ensures SeqnosOf(e.attempts, p.subject, p.generation) == UpTo(CountOf(e.attempts, p.subject, p.generation))
    {
      UpsertSeqnos(d.attempts, r, p.subject, p.generation);
      if p.subject == r.subject && p.generation != r.generation { OtherPairSeqnos(d.attempts, r, p.generation); }
    }
  }

  lemma OtherPairSeqnos(a: seq<AttemptRecord>, r: AttemptRecord, generation: nat)
    requires UniqueKeys(a) && Lookup(a, r.subject, r.seqno).Some? && Lookup(a, r.subject, r.seqno).value.generation == r.generation
    requires generation != r.generation
    ensures SeqnosOf(Upsert(a, r), r.subject, generation) == SeqnosOf(a, r.subject, generation)
  {
    UpsertMembers(a, r);
    hide Upsert;
    forall x | x in a && OfPair(x, r.subject, generation) ensures !SameKey(x, r) {
      LookupIs(a, x);
    }
  }

  lemma PutKnown(d: DurableState, h: History, r: AttemptRecord, e: DurableState)
    requires Inv(d, h) && e.attempts == Upsert(d.attempts, r) && e.topology == d.topology
    requires e.epoch == d.epoch && e.lastSeq >= d.lastSeq
    requires r.authority.epoch <= d.epoch && r.createSeq <= e.lastSeq && Pair(r.subject, r.generation) in h.used
    ensures UniqueKeys(e.attempts) && EpochBounded(e) && Known(e, h) && Placed(e)
  {
    UpsertMembers(d.attempts, r);
    hide Upsert, Pairs;
  }

  /** The records of an update's pair are in the history because the updated one is. */
  lemma UpdatedPairKnown(d: DurableState, h: History, r: AttemptRecord)
    requires Inv(d, h) && LegalUpdate(d, r)
    ensures Pair(r.subject, r.generation) in h.used
  {
    LookupSome(d.attempts, r.subject, r.seqno);
  }

  /** The guards of a put speak of nothing that storing it changes. */
  lemma StoredLegal(d: DurableState, h: History, kind: PutKind, r: AttemptRecord, limits: Limits)
    requires Legal(d, h, AttemptPut(kind, r), limits)
    ensures var t := Stored(kind, r, d.lastSeq + 1);
            if kind.Create? then LegalCreate(d, t.(createSeq := 0)) else LegalUpdate(d, t)
  {}

  lemma CreateKeeps(d: DurableState, h: History, r: AttemptRecord, e: DurableState)
    requires Inv(d, h) && LegalCreate(d, r.(createSeq := 0)) && r.createSeq <= e.lastSeq
    requires e.attempts == Upsert(d.attempts, r) && e.topology == d.topology && e.policy == d.policy
    requires e.epoch == d.epoch && e.coordinator == d.coordinator && e.lastSeq >= d.lastSeq
    ensures Inv(e, h)
  {
    hide Upsert, Led, Numbered, EpochBounded, Known, Placed, UniqueKeys, CountOf;
    assert Pair(r.subject, r.generation) in h.used by { HistoryHasCurrent(d, h, r.subject, r.generation); }
    PutKnown(d, h, r, e);
    CreateLed(d, h, r, e);
    CreateNumbered(d, h, r, e);
    CreateBudgeted(d, h, r, e);
  }

  lemma HistoryHasCurrent(d: DurableState, h: History, subject: LinkKey, generation: nat)
    requires Known(d, h) && Defines(d.topology, subject, generation)
    ensures Pair(subject, generation) in h.used
  {
    PairsMeans(d.topology, subject, generation);
  }

  lemma CreateLed(d: DurableState, h: History, r: AttemptRecord, e: DurableState)
    requires Inv(d, h) && LegalCreate(d, r.(createSeq := 0)) && e.attempts == Upsert(d.attempts, r)
    requires e.epoch == d.epoch && e.coordinator == d.coordinator
    ensures Led(e)
  {
    UpsertMembers(d.attempts, r);
    PairSeqnoFresh(d, h, r.(createSeq := 0));
    hide Upsert;
  }

  lemma CreateNumbered(d: DurableState, h: History, r: AttemptRecord, e: DurableState)
    requires Inv(d, h) && LegalCreate(d, r.(createSeq := 0)) && e.attempts == Upsert(d.attempts, r) && e.topology == d.topology
    ensures Numbered(e)
  {
    hide Upsert, Lookup, SeqnosOf, CountOf;
    PairsMeans(d.topology, r.subject, r.generation);
    NewKey(d, h, r.(createSeq := 0));
    forall p | p in Pairs(e.topology)
      ensures SeqnosOf(e.attempts, p.subject, p.generation) == UpTo(CountOf(e.attempts, p.subject, p.generation))
    {
      UpsertSeqnos(d.attempts, r, p.subject, p.generation);
      UpsertCounts(d.attempts, r, p.subject, p.generation);
      LookupSome(d.attempts, r.subject, r.seqno);
      if p.subject == r.subject { OneGeneration(d.topology, p, Pair(r.subject, r.generation)); }
    }
  }

  lemma CreateBudgeted(d: DurableState, h: History, r: AttemptRecord, e: DurableState)
    requires Inv(d, h) && LegalCreate(d, r.(createSeq := 0)) && e.attempts == Upsert(d.attempts, r) && e.policy == d.policy
    ensures Budgeted(e, h)
  {
    hide Upsert, CountOf;
    forall subject, generation ensures CountOf(e.attempts, subject, generation) <= h.budget {
      UpsertCounts(d.attempts, r, subject, generation);
    }
  }

  lemma UpdateKeeps(d: DurableState, h: History, r: AttemptRecord, e: DurableState)
    requires Inv(d, h) && LegalUpdate(d, r)
    requires e.attempts == Upsert(d.attempts, r) && e.topology == d.topology && e.policy == d.policy
    requires e.epoch == d.epoch && e.coordinator == d.coordinator && e.lastSeq >= d.lastSeq
    ensures Inv(e, h)
  {
    UpdatedPairKnown(d, h, r);
    hide Upsert, Led, Numbered, EpochBounded, Known, Placed, UniqueKeys, CountOf;
    PutKnown(d, h, r, e);
    UpdateLed(d, h, r, e);
    UpdateNumbered(d, h, r, e);
  }

  lemma GrowSame(d: DurableState, h: History)
    requires Pairs(d.topology) <= h.used && d.policy.maxAttempts <= h.budget
    ensures Grow(h, d) == h
  {
    assert h.used + Pairs(d.topology) == h.used;
  }

  lemma PutKeeps(d: DurableState, h: History, kind: PutKind, r: AttemptRecord, limits: Limits)
    requires Inv(d, h) && Legal(d, h, AttemptPut(kind, r), limits)
    ensures Inv(After(d, AttemptPut(kind, r), limits), h)
  {
    PutEffect(d, h, kind, r, limits);
    StoredLegal(d, h, kind, r, limits);
    hide Inv, LegalCreate, LegalUpdate, After, Upsert;
    var t := Stored(kind, r, d.lastSeq + 1);
    var e := After(d, AttemptPut(kind, r), limits);
    if kind.Create? { CreateKeeps(d, h, t, e); } else { UpdateKeeps(d, h, t, e); }
  }

  lemma BootKeeps(d: DurableState, h: History, e: DurableState)
    requires Inv(d, h) && e.epoch > d.epoch && e.attempts == d.attempts && e.topology == d.topology && e.policy == d.policy
    requires e.lastSeq >= d.lastSeq
    ensures Inv(e, h)
  {
    hide Pairs, CountOf, SeqnosOf;
    assert Led(e) by {
      forall r | r in e.attempts && Occupies(e, r) ensures Occupies(d, r) {}
    }
  }

  /** The attempts of each link generation that this topology defines are numbered from 1 to their count. */
  ghost predicate NumberedUnder(a: seq<AttemptRecord>, t: Topology) {
    forall p :: p in Pairs(t) ==> SeqnosOf(a, p.subject, p.generation) == UpTo(CountOf(a, p.subject, p.generation))
  }

  /** What was never defined before has no attempt, and what is defined already is numbered. */
  lemma NewIsNumbered(d: DurableState, h: History, t: Topology)
    requires Inv(d, h) && NothingReinstated(h, d.topology, t)
    ensures NumberedUnder(d.attempts, t)
  {
    hide Pairs;
    forall p | p in Pairs(t)
      ensures SeqnosOf(d.attempts, p.subject, p.generation) == UpTo(CountOf(d.attempts, p.subject, p.generation))
    {
      if p !in Pairs(d.topology) {
        assert p !in h.used;
        forall r | r in d.attempts ensures !OfPair(r, p.subject, p.generation) {
          assert Pair(r.subject, r.generation) in h.used;
        }
        NoneCounted(d.attempts, p.subject, p.generation);
        assert SeqnosOf(d.attempts, p.subject, p.generation) == {};
      }
    }
  }

  /** A definition under which the attempts are numbered keeps the invariant. */
  lemma NumberedKeeps(d: DurableState, h: History, e: DurableState)
    requires Inv(d, h) && NumberedUnder(d.attempts, e.topology) && e == d.(topology := e.topology, lastSeq := e.lastSeq, recordCount := e.recordCount)
    requires e.lastSeq >= d.lastSeq
    ensures Inv(e, Grow(h, e))
  {
    hide Pairs, SeqnosOf, CountOf, UniqueKeys;
    assert Led(e) by {
      forall r | r in e.attempts && Occupies(e, r) ensures Occupies(d, r) {}
    }
  }

  lemma TopologyKeeps(d: DurableState, h: History, e: DurableState)
    requires Inv(d, h) && NothingReinstated(h, d.topology, e.topology) && e == d.(topology := e.topology, lastSeq := e.lastSeq, recordCount := e.recordCount)
    requires e.lastSeq >= d.lastSeq
    ensures Inv(e, Grow(h, e))
  {
    hide Inv, NumberedUnder, NothingReinstated, Grow;
    NewIsNumbered(d, h, e.topology);
    NumberedKeeps(d, h, e);
  }

  /**
   * Exactly which definitions the invariant survives, whatever is remembered: those under which the
   * attempts of each link generation are numbered from 1 to their count. A generation of which no attempt
   * is left is numbered, and so is one that lost none; one that was overwritten in part is not.
   */
  lemma DefinitionSurvivesExactlyWhen(d: DurableState, h: History, t: Topology)
    requires Inv(d, h)
    ensures (exists k :: Inv(d.(topology := t), k)) <==> NumberedUnder(d.attempts, t)
  {
    hide Pairs, SeqnosOf, CountOf, UniqueKeys, Led;
    if NumberedUnder(d.attempts, t) { NumberedKeeps(d, h, d.(topology := t)); }
  }

  lemma OtherKeeps(d: DurableState, h: History, e: DurableState)
    requires Inv(d, h) && e.attempts == d.attempts && e.topology == d.topology && e.policy == d.policy
    requires e.epoch == d.epoch && e.coordinator == d.coordinator && e.lastSeq >= d.lastSeq
    ensures Inv(e, h)
  {
    hide Pairs, CountOf, SeqnosOf;
    assert Led(e) by {
      forall r | r in e.attempts && Occupies(e, r) ensures Occupies(d, r) {}
    }
  }

  lemma PolicyKeeps(d: DurableState, h: History, e: DurableState)
    requires Inv(d, h) && e == d.(policy := e.policy, lastSeq := e.lastSeq, recordCount := e.recordCount) && e.lastSeq >= d.lastSeq
    ensures Inv(e, Grow(h, e))
  {
    hide Pairs, CountOf, SeqnosOf;
    assert Led(e) by {
      forall r | r in e.attempts && Occupies(e, r) ensures Occupies(d, r) {}
    }
    forall subject, generation ensures CountOf(e.attempts, subject, generation) <= Grow(h, e).budget {
      assert CountOf(d.attempts, subject, generation) <= h.budget;
    }
  }

  /** Every legal commit keeps the invariant. */
  lemma CommitKeeps(d: DurableState, h: History, rec: Record, limits: Limits)
    requires Inv(d, h) && Legal(d, h, rec, limits)
    ensures Inv(After(d, rec, limits), Grow(h, After(d, rec, limits)))
  {
    var e := After(d, rec, limits);
    hide Inv, Legal, LegalCreate, LegalUpdate, NothingReinstated, Upsert, RetainAttempts, RetainFences, RetainEntries, Pairs, Grow;
    match rec {
      case AttemptPut(kind, r) =>
        PutKeeps(d, h, kind, r, limits);
        InvGrows(e, h);
      case Boot(_, _, _, _) =>
        LegalBoot(d, h, rec, limits);
        BootKeeps(d, h, e);
        InvGrows(e, h);
      case TopologyCommit(t) =>
        LegalTopology(d, h, t, limits);
        TopologyKeeps(d, h, e);
      case PolicyCommit(p) =>
        PolicyKeeps(d, h, e);
      case _ =>
        OtherKeeps(d, h, e);
        InvGrows(e, h);
    }
  }

  lemma LegalBoot(d: DurableState, h: History, rec: Record, limits: Limits)
    requires Legal(d, h, rec, limits) && rec.Boot?
    ensures rec.epoch > d.epoch
  {}

  lemma LegalTopology(d: DurableState, h: History, t: Topology, limits: Limits)
    requires Legal(d, h, TopologyCommit(t), limits)
    ensures NothingReinstated(h, d.topology, t)
  {}

  lemma InvGrows(d: DurableState, h: History)
    requires Inv(d, h)
    ensures Grow(h, d) == h
  {
    GrowSame(d, h);
  }

  lemma InvUnique(d: DurableState, h: History)
    requires Inv(d, h)
    ensures UniqueKeys(d.attempts)
  {}

  // ---- the single winner ----

  /**
   * At most one attempt of a link generation holds authority under the current epoch and
   * coordinator: two that did would both carry the largest sequence, so share a key.
   */
  lemma AtMostOneActive(d: DurableState, h: History, r: AttemptRecord, x: AttemptRecord)
    requires Inv(d, h) && r in d.attempts && x in d.attempts
    requires Active(d, r) && Active(d, x) && SamePair(r, x)
    ensures r == x
  {
    assert Occupies(d, r) && Occupies(d, x);
    assert r.seqno == x.seqno;
    LookupIs(d.attempts, r);
    LookupIs(d.attempts, x);
  }
}
