/** Reopening: exactly when it succeeds, what it restores, and that it restores no authority. */
module Restart {
  import opened Basics
  import opened Records
  import opened Lineage
  import opened Table
  import opened Invariant
  import opened Lifecycle
  import opened Refinement
  import opened StoreSafety
  import opened Protocol
  import opened EngineSafety
  import Evidence

  // ---- opening the store ----

  lemma RestoreIsFold(m: Medium, o: Lineage.StoreOptions)
    requires WellPlaced(m) && StartFault(m, o).None?
    ensures Restore(m, o) == if Fold(m, o).None? then Barred(Outcome.Corrupt, Reasons.CORRUPT_RECORD)
                             else Restored(Fold(m, o).value.(lastSeq := BaseOf(m) + |EntriesOf(m)|))
  {
    LastIs(m);
    hide Replayed, StartFault;
  }

  /**
   * Reopening succeeds exactly when the snapshot, if any, is this fabric's and valid, no fence
   * record lies above the watermark, and the journal's own base is not below the watermark (or
   * there is no journal and one can be created).
   */
  lemma OpensExactlyWhen(m: Medium, d: Lineage.DurableState, limits: Limits, o: Lineage.StoreOptions, fate: Fate)
    requires Describes(m, d, limits) && |d.attempts| <= o.limits.maxAttempts
    ensures OpenStore(m, o, fate).0.Restored?
            <==> StartFault(m, o).None? && FenceFree(m) && (if m.journal.None? then fate.creates else Covered(m) <= BaseOf(m))
    ensures StartFault(m, o).None? && !FenceFree(m) ==> OpenStore(m, o, fate).0 == Barred(Outcome.Corrupt, Reasons.CORRUPT_RECORD)
    ensures StartFault(m, o).None? && FenceFree(m) && m.journal.Some? && BaseOf(m) < Covered(m) ==>
              OpenStore(m, o, fate).0 == Barred(Outcome.Conflict, Reasons.SEQUENCE_REGRESSION)
  {
    hide Replay, StartFault, FenceFree, Near, WellPlaced, Restore;
    assert DescribesFor(m, d, limits, o);
    if StartFault(m, o).None? { RestoreIsFold(m, o); }
    StartIs(m, o);
    BarredKeeps(m, o);
  }

  lemma StartIs(m: Medium, o: Lineage.StoreOptions)
    ensures Start(m, o).lastSeq == Covered(m)
  {}

  lemma BarredKeeps(m: Medium, o: Lineage.StoreOptions)
    ensures StartFault(m, o).Some? ==> Restore(m, o).Barred?
  {}

  /** What opening restores is the state the medium describes; the index, if its bound is the same. */
  lemma RestoredIsNear(m: Medium, d: Lineage.DurableState, limits: Limits, o: Lineage.StoreOptions, fate: Fate)
    requires Describes(m, d, limits) && |d.attempts| <= o.limits.maxAttempts && OpenStore(m, o, fate).0.Restored?
    ensures var x := OpenStore(m, o, fate).0.state; Near(x, KnownAs(d, limits, x, o.limits), m, o)
    ensures Fold(m, o).Some? && OpenStore(m, o, fate).0.state == Fold(m, o).value.(lastSeq := d.lastSeq)
    ensures OpenStore(m, o, fate).0.state.lastSeq == d.lastSeq
    ensures OpenStore(m, o, fate).1.journal.Some? && OpenStore(m, o, fate).1.snapshot == m.snapshot
    ensures EntriesOf(OpenStore(m, o, fate).1) == EntriesOf(m) && BaseOf(OpenStore(m, o, fate).1) == BaseOf(m)
  {
    hide Replay, FenceFree, Near;
    assert DescribesFor(m, d, limits, o);
    if StartFault(m, o).None? { RestoreIsFold(m, o); }
    StartIs(m, o);
    var y := Fold(m, o).value;
    NearReads(y, KnownAs(d, limits, y, o.limits), m, o, BaseOf(m) + |EntriesOf(m)|);
  }

  lemma NearReads(x: Lineage.DurableState, d: Lineage.DurableState, m: Medium, o: Lineage.StoreOptions, lastSeq: nat)
    requires Near(x, d, m, o)
    ensures Near(x.(lastSeq := lastSeq), d, m, o)
  {
    hide Alike, DefinesPolicy, DefinesTopology;
  }

  /** A medium that describes `d` describes what is restored of it under other limits, as kept under those. */
  lemma DescribesAgain(m: Medium, d: Lineage.DurableState, limits: Limits, o: Lineage.StoreOptions, fate: Fate)
    requires Describes(m, d, limits) && |d.attempts| <= o.limits.maxAttempts && OpenStore(m, o, fate).0.Restored?
    ensures Describes(OpenStore(m, o, fate).1, OpenStore(m, o, fate).0.state, o.limits)
  {
    hide Fold, Near, DescribesFor, OpenStore, WellPlaced;
    RestoredIsNear(m, d, limits, o, fate);
    var x, n := OpenStore(m, o, fate).0.state, OpenStore(m, o, fate).1;
    NearSizes(x, KnownAs(d, limits, x, o.limits), m, o);
    SamePlaces(m, n);
    forall p: Lineage.StoreOptions | |x.attempts| <= p.limits.maxAttempts ensures DescribesFor(n, x, o.limits, p) {
      assert DescribesFor(m, d, limits, p);
      DescribesAgainFor(m, d, limits, o, p, x, n);
    }
  }

  lemma SamePlaces(m: Medium, n: Medium)
    requires WellPlaced(m) && n.snapshot == m.snapshot && EntriesOf(n) == EntriesOf(m) && BaseOf(n) == BaseOf(m)
    ensures WellPlaced(n)
  {}

  lemma NearSizes(x: Lineage.DurableState, d: Lineage.DurableState, m: Medium, o: Lineage.StoreOptions)
    requires Near(x, d, m, o)
    ensures |x.attempts| == |d.attempts|
  {}

  lemma DescribesAgainFor(m: Medium, d: Lineage.DurableState, limits: Limits, o: Lineage.StoreOptions, p: Lineage.StoreOptions,
                          x: Lineage.DurableState, n: Medium)
    requires DescribesFor(m, d, limits, p) && Near(x, KnownAs(d, limits, x, o.limits), m, o)
    requires Fold(m, o).Some? && x.idempotency == Fold(m, o).value.idempotency
    requires n.snapshot == m.snapshot && EntriesOf(n) == EntriesOf(m) && BaseOf(n) == BaseOf(m)
    ensures DescribesFor(n, x, o.limits, p)
  {
    hide Fold, Near, FenceFree;
    SameMedium(m, n, p);
    if Fold(m, p).Some? {
      var y := Fold(m, p).value;
      NearIndexed(y, KnownAs(d, limits, y, p.limits), m, p);
      NearIndexed(x, KnownAs(d, limits, x, o.limits), m, o);
      var i := if p.limits.maxIdempotency == o.limits.maxIdempotency then x.idempotency else y.idempotency;
      if p.limits.maxIdempotency == o.limits.maxIdempotency { SameIndex(m, o, p); }
      assert Near(y.(idempotency := i), d.(idempotency := i), m, p) by { assert KnownAs(d, limits, y, p.limits).(idempotency := i) == d.(idempotency := i); }
      assert Near(x.(idempotency := i), d.(idempotency := i), m, o) by { assert KnownAs(d, limits, x, o.limits).(idempotency := i) == d.(idempotency := i); }
      NearSwaps(y.(idempotency := i), d.(idempotency := i), m, p, x.(idempotency := i), o, n);
    }
  }

  lemma SameIndex(m: Medium, o: Lineage.StoreOptions, p: Lineage.StoreOptions)
    requires o.limits.maxIdempotency == p.limits.maxIdempotency && Fold(m, o).Some? && Fold(m, p).Some?
    ensures Fold(m, o).value.idempotency == Fold(m, p).value.idempotency
  {
    hide Replay;
    IndexFolds(Start(m, o), Start(m, p), Covered(m), BaseOf(m), EntriesOf(m), o.limits, p.limits);
  }

  lemma SameMedium(m: Medium, n: Medium, o: Lineage.StoreOptions)
    requires n.snapshot == m.snapshot && EntriesOf(n) == EntriesOf(m) && BaseOf(n) == BaseOf(m)
    ensures Fold(m, o) == Fold(n, o) && FenceFree(m) == FenceFree(n)
    ensures DefinesPolicy(m) == DefinesPolicy(n) && DefinesTopology(m) == DefinesTopology(n)
  {}

  lemma NearSwaps(y: Lineage.DurableState, d: Lineage.DurableState, m: Medium, p: Lineage.StoreOptions,
                  x: Lineage.DurableState, o: Lineage.StoreOptions, n: Medium)
    requires Near(y, d, m, p) && Near(x, d, m, o)
    requires n.snapshot == m.snapshot && EntriesOf(n) == EntriesOf(m) && BaseOf(n) == BaseOf(m)
    ensures Near(y, x, n, p)
  {
    SameMedium(m, n, p);
    hide DefinesPolicy, DefinesTopology, Bare;
  }

  /** A state near a sound one is sound under definitions that number its attempts. */
  lemma NearKeeps(x: Lineage.DurableState, d: Lineage.DurableState, h: History, m: Medium, o: Lineage.StoreOptions)
    requires Inv(d, h) && Near(x, d, m, o) && x.lastSeq == d.lastSeq == BaseOf(m) + |EntriesOf(m)|
    requires NumberedUnder(d.attempts, x.topology)
    ensures Inv(x, Grow(h, x))
  {
    var y := d.(attempts := x.attempts);
    AlikeInv(d, h, y);
    AlikeNumbered(d.attempts, x.attempts, x.topology);
    NumberedKeeps(y, h, y.(topology := x.topology));
    var z := y.(topology := x.topology);
    PolicyKeeps(z, Grow(h, z), z.(policy := x.policy));
    hide Inv, Evolves, Pairs, Alike;
    assert Grow(Grow(h, z), z.(policy := x.policy)).used == Grow(h, x).used;
    InvMore(z.(policy := x.policy), Grow(Grow(h, z), z.(policy := x.policy)), Grow2(h, d, x));
    TightHistory(x, h, d, z);
  }

  lemma AlikeNumbered(a: seq<AttemptRecord>, b: seq<AttemptRecord>, t: Topology)
    requires Alike(b, a) && NumberedUnder(a, t)
    ensures NumberedUnder(b, t)
  {
    hide Pairs, SeqnosOf, CountOf, Alike;
    forall p | p in Pairs(t) ensures SeqnosOf(b, p.subject, p.generation) == UpTo(CountOf(b, p.subject, p.generation)) {
      AlikeSeqnos(b, a, p.subject, p.generation);
      AlikeCounts(b, a, p.subject, p.generation);
    }
  }

  function Grow2(h: History, d: Lineage.DurableState, x: Lineage.DurableState): History {
    History(h.used + Pairs(x.topology), Max(Max(h.budget, d.policy.maxAttempts), x.policy.maxAttempts))
  }

  lemma TightHistory(x: Lineage.DurableState, h: History, d: Lineage.DurableState, z: Lineage.DurableState)
    requires Inv(d, h) && Inv(z.(policy := x.policy), Grow2(h, d, x))
    requires x.attempts == z.attempts && x.topology == z.topology && x.epoch == z.epoch && x.coordinator == z.coordinator && x.lastSeq == z.lastSeq
    ensures Inv(x, Grow(h, x))
  {
    hide Pairs, SeqnosOf, CountOf;
    assert Led(x) by {
      forall r | r in x.attempts && Occupies(x, r) ensures Occupies(z.(policy := x.policy), r) {}
    }
    assert Grow2(h, d, x) == Grow(h, x);
  }

  lemma AlikeInv(d: Lineage.DurableState, h: History, y: Lineage.DurableState)
    requires Inv(d, h) && Alike(y.attempts, d.attempts) && y == d.(attempts := y.attempts)
    requires forall r :: r in y.attempts ==> r.createSeq <= y.lastSeq
    ensures Inv(y, h)
  {
    AlikeUnique(y.attempts, d.attempts);
    AlikeLed(d, y);
    AlikeRest(d, h, y);
    forall p | p in Pairs(y.topology)
      ensures SeqnosOf(y.attempts, p.subject, p.generation) == UpTo(CountOf(y.attempts, p.subject, p.generation))
    {
      AlikeSeqnos(y.attempts, d.attempts, p.subject, p.generation);
      AlikeCounts(y.attempts, d.attempts, p.subject, p.generation);
    }
    forall subject, generation ensures CountOf(y.attempts, subject, generation) <= h.budget {
      AlikeCounts(y.attempts, d.attempts, subject, generation);
      assert CountOf(d.attempts, subject, generation) <= h.budget;
    }
    hide Pairs, SeqnosOf, CountOf, UniqueKeys, Led, Alike;
  }

  lemma BareParts(r: AttemptRecord, t: AttemptRecord)
    requires Bare(r) == Bare(t)
    ensures r.subject == t.subject && r.generation == t.generation && r.seqno == t.seqno && r.phase == t.phase
    ensures r.authority == t.authority && r.revalidated == t.revalidated && r.reasons == t.reasons
  {
    assert Bare(r).subject == r.subject && Bare(t).subject == t.subject;
    assert Bare(r).generation == r.generation && Bare(t).generation == t.generation;
    assert Bare(r).seqno == r.seqno && Bare(t).seqno == t.seqno;
    assert Bare(r).phase == r.phase && Bare(t).phase == t.phase;
    assert Bare(r).authority == r.authority && Bare(t).authority == t.authority;
    assert Bare(r).revalidated == r.revalidated && Bare(t).revalidated == t.revalidated;
    assert Bare(r).reasons == r.reasons && Bare(t).reasons == t.reasons;
  }

  lemma AlikeUnique(a: seq<AttemptRecord>, b: seq<AttemptRecord>)
    requires Alike(a, b) && UniqueKeys(b)
    ensures UniqueKeys(a)
  {
    hide Bare;
    forall i, j | 0 <= i < j < |a| ensures !SameKey(a[i], a[j]) {
      BareParts(a[i], b[i]);
      BareParts(a[j], b[j]);
      assert !SameKey(b[i], b[j]);
    }
  }

  lemma AlikeLed(d: Lineage.DurableState, y: Lineage.DurableState)
    requires Led(d) && Alike(y.attempts, d.attempts) && y.epoch == d.epoch && y.coordinator == d.coordinator
    ensures Led(y)
  {
    hide Bare, Alike;
    forall r, x | r in y.attempts && x in y.attempts && Occupies(y, r) && SamePair(r, x) ensures x.seqno <= r.seqno {
      var r' := AlikeMember(y.attempts, d.attempts, r);
      var x' := AlikeMember(y.attempts, d.attempts, x);
      BareParts(r, r');
      BareParts(x, x');
      assert Occupies(d, r') && SamePair(r', x');
    }
  }

  lemma AlikeRest(d: Lineage.DurableState, h: History, y: Lineage.DurableState)
    requires EpochBounded(d) && Known(d, h) && Alike(y.attempts, d.attempts) && y == d.(attempts := y.attempts)
    ensures EpochBounded(y) && Known(y, h)
  {
    hide Bare, Alike, Pairs;
    forall r | r in y.attempts ensures r.authority.epoch <= y.epoch && Pair(r.subject, r.generation) in h.used {
      var t := AlikeMember(y.attempts, d.attempts, r);
      BareParts(r, t);
    }
  }

  lemma NearEvolves(x: Lineage.DurableState, d: Lineage.DurableState, h: History, m: Medium, o: Lineage.StoreOptions)
    requires Inv(d, h) && Near(x, d, m, o) && NothingReinstated(h, d.topology, x.topology)
    ensures Evolves(d, h, x, Grow(h, x))
  {
    hide Inv, Near, Pairs, Alike, Continues, Holds;
    NearAlike(x, d, m, o);
    InvUnique(d, h);
    AlikeSwap(x.attempts, d.attempts);
    AlikeUnique(x.attempts, d.attempts);
    forall r | r in d.attempts ensures Continues(x, Grow(h, x), r) {
      AlikeContinues(x, Grow(h, x), d.attempts, r);
    }
    forall r | r in x.attempts ensures Holds(d.attempts, r.subject, r.generation, r.seqno) {
      AlikeHolds(x.attempts, d.attempts, r);
    }
  }

  lemma AlikeContinues(x: Lineage.DurableState, k: History, a: seq<AttemptRecord>, r: AttemptRecord)
    requires Alike(a, x.attempts) && UniqueKeys(x.attempts) && r in a
    ensures Continues(x, k, r)
  {
    hide Bare, Alike, Gone;
    var t := AlikeMember(a, x.attempts, r);
    LookupIs(x.attempts, t);
    BareParts(r, t);
  }

  lemma AlikeHolds(a: seq<AttemptRecord>, b: seq<AttemptRecord>, r: AttemptRecord)
    requires Alike(a, b) && UniqueKeys(b) && r in a
    ensures Holds(b, r.subject, r.generation, r.seqno)
  {
    hide Bare, Alike;
    var t := AlikeMember(a, b, r);
    LookupIs(b, t);
    BareParts(r, t);
  }

  lemma NearAlike(x: Lineage.DurableState, d: Lineage.DurableState, m: Medium, o: Lineage.StoreOptions)
    requires Near(x, d, m, o)
    ensures Alike(x.attempts, d.attempts) && x.epoch == d.epoch
  {}

  lemma AlikeSwap(a: seq<AttemptRecord>, b: seq<AttemptRecord>)
    requires Alike(a, b)
    ensures Alike(b, a)
  {
    hide Bare;
  }

  /** What is said of the state that was left does not read its index. */
  lemma KnownInv(d: Lineage.DurableState, h: History, limits: Limits, x: Lineage.DurableState, under: Limits)
    requires Inv(d, h)
    ensures Inv(KnownAs(d, limits, x, under), h)
  {
    hide UniqueKeys;
  }

  lemma KnownEvolves(d: Lineage.DurableState, h: History, limits: Limits, x: Lineage.DurableState, under: Limits, k: History)
    requires Evolves(KnownAs(d, limits, x, under), h, x, k)
    ensures Evolves(d, h, x, k)
  {
    hide Continues, Holds;
  }

  /** The store as a successful open finds it, before the boot record, under definitions that number its attempts. */
  lemma OpenedKeeps(was: StoreState, h: History, o: Lineage.StoreOptions, fate: Fate)
    requires StoreInv(was, h) && |was.disk.attempts| <= o.limits.maxAttempts
    requires OpenStore(was.medium, o, fate).0.Restored?
    requires NumberedUnder(was.disk.attempts, OpenStore(was.medium, o, fate).0.state.topology)
    ensures var (x, m) := OpenStore(was.medium, o, fate);
            var s := Lineage.StoreState(x.state, x.state, m, false, 0, o.limits, fate);
            && StoreInv(s, Grow(h, x.state))
            && x.state.epoch == was.disk.epoch && x.state.lastSeq == was.disk.lastSeq
            && x.state.fences == was.disk.fences
            && Alike(x.state.attempts, was.disk.attempts)
  {
    hide Inv, OpenStore, NumberedUnder, Grow, Describes, KnownAs;
    var (restored, m) := OpenStore(was.medium, o, fate);
    RestoredIsNear(was.medium, was.disk, was.limits, o, fate);
    var x := restored.state;
    DescribesAgain(was.medium, was.disk, was.limits, o, fate);
    DescribedSize(was.medium, was.disk, was.limits);
    KnownInv(was.disk, h, was.limits, x, o.limits);
    KnownKeeps(was.disk, was.limits, x, o.limits);
    NearKeeps(x, KnownAs(was.disk, was.limits, x, o.limits), h, was.medium, o);
  }

  /** If nothing is reinstated, it comes after what the previous process left. */
  lemma OpenedStoreInv(was: StoreState, h: History, o: Lineage.StoreOptions, fate: Fate)
    requires StoreInv(was, h) && |was.disk.attempts| <= o.limits.maxAttempts
    requires OpenStore(was.medium, o, fate).0.Restored?
    requires NothingReinstated(h, was.disk.topology, OpenStore(was.medium, o, fate).0.state.topology)
    ensures var (x, m) := OpenStore(was.medium, o, fate);
            var s := Lineage.StoreState(x.state, x.state, m, false, 0, o.limits, fate);
            && StoreInv(s, Grow(h, x.state))
            && Evolves(was.disk, h, x.state, Grow(h, x.state))
            && x.state.epoch == was.disk.epoch && x.state.lastSeq == was.disk.lastSeq
            && x.state.fences == was.disk.fences
            && Alike(x.state.attempts, was.disk.attempts)
  {
    hide Inv, OpenStore, Evolves, NothingReinstated, NumberedUnder, Grow, Describes, KnownAs, Near;
    RestoredIsNear(was.medium, was.disk, was.limits, o, fate);
    var x := OpenStore(was.medium, o, fate).0.state;
    NewIsNumbered(was.disk, h, x.topology);
    OpenedKeeps(was, h, o, fate);
    KnownInv(was.disk, h, was.limits, x, o.limits);
    KnownKeeps(was.disk, was.limits, x, o.limits);
    NearEvolves(x, KnownAs(was.disk, was.limits, x, o.limits), h, was.medium, o);
    KnownEvolves(was.disk, h, was.limits, x, o.limits, Grow(h, x));
  }

  lemma KnownKeeps(d: Lineage.DurableState, limits: Limits, x: Lineage.DurableState, under: Limits)
    ensures var k := KnownAs(d, limits, x, under); k == d.(idempotency := k.idempotency)
  {}

  lemma DescribedSize(m: Medium, d: Lineage.DurableState, limits: Limits)
    requires Describes(m, d, limits)
    ensures d.lastSeq == BaseOf(m) + |EntriesOf(m)|
  {}

  // ---- fencing what was in flight ----

  /** While fencing: who is still in flight is among `rest`, which stands as it was listed, and every authority is of an earlier epoch. */
  ghost predicate Cutting(d: Lineage.DurableState, rest: seq<AttemptRecord>) {
    && (forall r :: r in d.attempts && !Terminal(r.phase) ==> r in rest)
    && (forall r :: r in d.attempts ==> r.authority.epoch < d.epoch)
    && (forall r :: r in rest ==> Lookup(d.attempts, r.subject, r.seqno) == Some(r))
    && UniqueKeys(rest)
  }

  lemma CutIsLegal(d: Lineage.DurableState, h: History, r: AttemptRecord, limits: Limits)
    requires Inv(d, h) && |d.attempts| <= limits.maxAttempts
    requires Lookup(d.attempts, r.subject, r.seqno) == Some(r) && !Terminal(r.phase)
    ensures Legal(d, h, AttemptPut(Interruption, Cut(r)), limits)
  {
    hide Inv, Legal, AddReason;
    FoundIs(d, h, r.subject, r.seqno);
    UpdateIsLegal(d, h, Interruption, r, Cut(r), limits);
  }

  lemma CutPut(d: Lineage.DurableState, h: History, rest: seq<AttemptRecord>, limits: Limits)
    requires Inv(d, h) && |d.attempts| <= limits.maxAttempts && rest != [] && !Terminal(rest[0].phase) && Cutting(d, rest)
    ensures Cutting(After(d, AttemptPut(Interruption, Cut(rest[0])), limits), rest[1..])
  {
    hide Inv, Legal, After, AddReason, Lookup;
    var r := rest[0];
    CutIsLegal(d, h, r, limits);
    PutView(d, h, Interruption, Cut(r), limits);
    var f := After(d, AttemptPut(Interruption, Cut(r)), limits);
    assert rest == [r] + rest[1..];
    forall x | x in rest[1..] ensures Lookup(f.attempts, x.subject, x.seqno) == Some(x) {
      LookupSome(d.attempts, x.subject, x.seqno);
      assert !SameKey(x, r);
      LookupIs(f.attempts, x);
    }
    LookupSome(d.attempts, r.subject, r.seqno);
    assert r in d.attempts;
    forall x | x in f.attempts && !Terminal(x.phase) ensures x in rest[1..] {
      assert x in d.attempts && !SameKey(x, r);
    }
  }

  /** What a restart makes of one attempt. */
  ghost predicate CutIn(a: seq<AttemptRecord>, x: AttemptRecord) {
    var now := Lookup(a, x.subject, x.seqno);
    now.Some? && if Terminal(x.phase) then now.value == x else Bare(now.value) == Bare(Cut(x))
  }

  /** The attempt is under its key and nobody in `rest` shares the key. */
  ghost predicate Aside(a: seq<AttemptRecord>, rest: seq<AttemptRecord>, x: AttemptRecord) {
    Lookup(a, x.subject, x.seqno) == Some(x) && forall r :: r in rest ==> !SameKey(r, x)
  }

  ghost predicate Fencing(s: StoreState, h: History, rest: seq<AttemptRecord>) {
    StoreInv(s, h) && (!s.failed ==> Cutting(s.d, rest))
  }

  lemma InterruptOneFences(s: StoreState, h: History, rest: seq<AttemptRecord>, epoch: nat, incarnation: Incarnation)
    requires Fencing(s, h, rest) && rest != [] && !Terminal(rest[0].phase) && !s.failed
    ensures var t := InterruptOne(s, rest[0], epoch, incarnation);
            && Fencing(t, h, rest[1..]) && Safe(s, h, t, h)
            && (!t.failed ==>
                  && t.d.epoch == s.d.epoch && t.d.coordinator == s.d.coordinator
                  && CutIn(t.d.attempts, rest[0])
                  && (forall x: AttemptRecord :: Aside(s.d.attempts, rest, x) ==> Aside(t.d.attempts, rest[1..], x))
                  && (forall x: AttemptRecord :: Aside(s.d.attempts, rest[1..], x) && !SameKey(x, rest[0]) ==> Aside(t.d.attempts, rest[1..], x))
                  && t.d.fences == RetainFences(s.d.fences + [FenceRecord(PreRestartAuthority, rest[0].subject, rest[0].generation,
                                                                           rest[0].seqno, epoch, incarnation, s.d.lastSeq + 2, [])], s.limits.maxFences)
                  && t.d.lastSeq == s.d.lastSeq + 2)
  {
    hide Inv, Legal, Describes, Evolves, Cutting, UniqueKeys, Cut, Bare, Upsert, RetainFences, Lookup;
    var r := rest[0];
    CuttingHead(s.d, rest);
    CutIsLegal(s.d, h, r, s.limits);
    CutPut(s.d, h, rest, s.limits);
    CutKey(r);
    CommitSafe(s, h, AttemptPut(Interruption, Cut(r)));
    var put := Commit(s, AttemptPut(Interruption, Cut(r)));
    PutEffect(s.d, h, Interruption, Cut(r), s.limits);
    if !put.failed {
      var fence := FencePut(FenceRecord(PreRestartAuthority, r.subject, r.generation, r.seqno, epoch, incarnation, 0, []));
      FenceSafe(put, h, fence);
      var t := Commit(put, fence);
      SafeOn(s, h, put, h, t, h);
      CuttingReads(put.d, t.d, rest[1..]);
      if !t.failed {
        FenceStored(put, fence);
        PutResult(s.d, h, Cut(r), s.limits, r);
        forall x: AttemptRecord | Lookup(s.d.attempts, x.subject, x.seqno) == Some(x) && !SameKey(x, r)
          ensures Lookup(t.d.attempts, x.subject, x.seqno) == Some(x)
        {
          PutLeaves(s.d, h, Cut(r), s.limits, x);
        }
        assert rest == [r] + rest[1..];
      }
    }
  }

  lemma CutKey(r: AttemptRecord)
    ensures Cut(r).subject == r.subject && Cut(r).seqno == r.seqno
  {}

  lemma FenceStored(s: StoreState, rec: Record)
    requires rec.FencePut? && !Commit(s, rec).failed
    ensures Commit(s, rec).d == s.d.(fences := RetainFences(s.d.fences + [rec.fence.(seqno := s.d.lastSeq + 1)], s.limits.maxFences),
                                     lastSeq := s.d.lastSeq + 1, recordCount := s.d.recordCount + 1)
  {
    hide RetainFences;
  }

  lemma FenceSafe(s: StoreState, h: History, rec: Record)
    requires StoreInv(s, h) && rec.FencePut? && rec.fence.seqno == 0
    ensures Safe(s, h, Commit(s, rec), h)
    ensures SameView(s.d, Commit(s, rec).d)
  {
    CommitSafe(s, h, rec);
    hide RetainFences;
  }

  lemma CuttingHead(d: Lineage.DurableState, rest: seq<AttemptRecord>)
    requires Cutting(d, rest) && rest != []
    ensures Lookup(d.attempts, rest[0].subject, rest[0].seqno) == Some(rest[0])
    ensures forall x :: x in rest[1..] ==> !SameKey(x, rest[0])
  {
    assert rest == [rest[0]] + rest[1..];
    forall x | x in rest[1..] ensures !SameKey(x, rest[0]) {
      assert !SameKey(rest[0], x);
    }
  }

  lemma CuttingReads(d: Lineage.DurableState, e: Lineage.DurableState, rest: seq<AttemptRecord>)
    requires SameView(d, e)
    ensures Cutting(d, rest) == Cutting(e, rest)
  {}

  lemma PutResult(d: Lineage.DurableState, h: History, r: AttemptRecord, limits: Limits, was: AttemptRecord)
    requires Inv(d, h) && Legal(d, h, AttemptPut(Interruption, r), limits) && SameKey(r, was) && r == Cut(was) && !Terminal(was.phase)
    ensures CutIn(After(d, AttemptPut(Interruption, r), limits).attempts, was)
  {
    hide Inv, Legal, After, Cut;
    PutFound(d, h, Interruption, r, limits);
    StoredBare(Interruption, r, d.lastSeq + 1);
  }

  lemma PutLeaves(d: Lineage.DurableState, h: History, r: AttemptRecord, limits: Limits, x: AttemptRecord)
    requires Inv(d, h) && Legal(d, h, AttemptPut(Interruption, r), limits) && !SameKey(x, r)
    requires Lookup(d.attempts, x.subject, x.seqno) == Some(x)
    ensures Lookup(After(d, AttemptPut(Interruption, r), limits).attempts, x.subject, x.seqno) == Some(x)
  {
    hide Inv, Legal, After, Lookup;
    PutView(d, h, Interruption, r, limits);
    LookupSome(d.attempts, x.subject, x.seqno);
    LookupIs(After(d, AttemptPut(Interruption, r), limits).attempts, x);
  }

  /** The fences a restart writes: one for each attempt that was in flight, in table order, at every second position. */
  function FencesFor(rest: seq<AttemptRecord>, epoch: nat, incarnation: Incarnation, seqno: nat): (f: seq<FenceRecord>)
    ensures |f| == InFlight(rest)
    decreases |rest|
  {
    if rest == [] then []
    else if Terminal(rest[0].phase) then FencesFor(rest[1..], epoch, incarnation, seqno)
    else [FenceRecord(PreRestartAuthority, rest[0].subject, rest[0].generation, rest[0].seqno, epoch, incarnation, seqno + 2, [])]
         + FencesFor(rest[1..], epoch, incarnation, seqno + 2)
  }

  ghost predicate Fenced(s: StoreState, t: StoreState, rest: seq<AttemptRecord>, epoch: nat, incarnation: Incarnation) {
    && t.d.epoch == s.d.epoch && t.d.coordinator == s.d.coordinator
    && (forall x :: x in rest ==> CutIn(t.d.attempts, x))
    && (forall x: AttemptRecord :: Aside(s.d.attempts, rest, x) ==> Lookup(t.d.attempts, x.subject, x.seqno) == Some(x))
    && (|s.d.fences| + InFlight(rest) <= s.limits.maxFences ==>
          t.d.fences == s.d.fences + FencesFor(rest, epoch, incarnation, s.d.lastSeq))
  }

  lemma NothingFenced(s: StoreState, epoch: nat, incarnation: Incarnation)
    ensures Fenced(s, s, [], epoch, incarnation)
  {}

  lemma FencedStep(s: StoreState, h: History, one: StoreState, t: StoreState, rest: seq<AttemptRecord>, epoch: nat, incarnation: Incarnation)
    requires Fencing(s, h, rest) && rest != [] && !Terminal(rest[0].phase) && !s.failed
    requires one == InterruptOne(s, rest[0], epoch, incarnation) && !one.failed
    requires Fenced(one, t, rest[1..], epoch, incarnation)
    ensures Fenced(s, t, rest, epoch, incarnation)
  {
    hide StoreInv, Cutting, InterruptOne, CutIn, Fencing, Lookup, RetainFences, Aside, SameKey;
    InterruptOneFences(s, h, rest, epoch, incarnation);
    FencingHead(s, h, rest);
    HeadStays(one.d.attempts, t.d.attempts, rest);
    MembersSplit(rest);
    if |s.d.fences| + InFlight(rest) <= s.limits.maxFences { FencedFences(s, h, one, t, rest, epoch, incarnation); }
  }

  lemma MembersSplit(rest: seq<AttemptRecord>)
    requires rest != []
    ensures forall x :: x in rest ==> x == rest[0] || x in rest[1..]
  {
    assert rest == [rest[0]] + rest[1..];
  }

  lemma FencedFences(s: StoreState, h: History, one: StoreState, t: StoreState, rest: seq<AttemptRecord>, epoch: nat, incarnation: Incarnation)
    requires Fencing(s, h, rest) && rest != [] && !Terminal(rest[0].phase) && !s.failed
    requires one == InterruptOne(s, rest[0], epoch, incarnation) && !one.failed
    requires Fenced(one, t, rest[1..], epoch, incarnation)
    requires |s.d.fences| + InFlight(rest) <= s.limits.maxFences
    ensures t.d.fences == s.d.fences + FencesFor(rest, epoch, incarnation, s.d.lastSeq)
  {
    hide StoreInv, Cutting, InterruptOne, CutIn, Fencing, Lookup, RetainFences, Aside, SameKey;
    InterruptOneFences(s, h, rest, epoch, incarnation);
    InterruptLimits(s, rest[0], epoch, incarnation);
    FitFences(s.d.fences, FenceRecord(PreRestartAuthority, rest[0].subject, rest[0].generation, rest[0].seqno, epoch, incarnation, s.d.lastSeq + 2, []),
              s.limits.maxFences);
  }

  lemma FitFences(f: seq<FenceRecord>, r: FenceRecord, max: nat)
    requires |f| < max
    ensures RetainFences(f + [r], max) == f + [r]
  {}

  lemma InterruptLimits(s: StoreState, r: AttemptRecord, epoch: nat, incarnation: Incarnation)
    ensures InterruptOne(s, r, epoch, incarnation).limits == s.limits
  {
    hide Cut;
  }

  /** What became of the head stays so while the others are cut. */
  lemma HeadStays(a: seq<AttemptRecord>, b: seq<AttemptRecord>, rest: seq<AttemptRecord>)
    requires rest != [] && CutIn(a, rest[0])
    requires forall x :: x in rest[1..] ==> !SameKey(x, rest[0])
    requires forall x: AttemptRecord :: Aside(a, rest[1..], x) ==> Lookup(b, x.subject, x.seqno) == Some(x)
    ensures CutIn(b, rest[0])
  {
    hide Bare, Cut;
    LookupSome(a, rest[0].subject, rest[0].seqno);
    var y := Lookup(a, rest[0].subject, rest[0].seqno).value;
    assert Aside(a, rest[1..], y);
  }

  lemma FencingHead(s: StoreState, h: History, rest: seq<AttemptRecord>)
    requires Fencing(s, h, rest) && rest != [] && !s.failed
    ensures Lookup(s.d.attempts, rest[0].subject, rest[0].seqno) == Some(rest[0])
    ensures forall x :: x in rest[1..] ==> !SameKey(x, rest[0])
  {
    CuttingHead(s.d, rest);
  }

  lemma FencedSkip(s: StoreState, h: History, t: StoreState, rest: seq<AttemptRecord>, epoch: nat, incarnation: Incarnation)
    requires Fencing(s, h, rest) && rest != [] && Terminal(rest[0].phase) && !s.failed
    requires Fenced(s, t, rest[1..], epoch, incarnation)
    ensures Fenced(s, t, rest, epoch, incarnation)
  {
    hide StoreInv, Cutting, Fencing, Lookup;
    FencingHead(s, h, rest);
    assert rest == [rest[0]] + rest[1..];
    assert Aside(s.d.attempts, rest[1..], rest[0]);
  }

  lemma FencingSkips(s: StoreState, h: History, rest: seq<AttemptRecord>)
    requires Fencing(s, h, rest) && rest != [] && Terminal(rest[0].phase)
    ensures Fencing(s, h, rest[1..])
  {
    assert rest == [rest[0]] + rest[1..];
  }

  /** The restart fence: however its writes end the lineage is sound; when they all succeed, nothing listed is left in flight. */
  lemma {:induction false} FenceRestartFences(s: StoreState, h: History, rest: seq<AttemptRecord>, epoch: nat, incarnation: Incarnation)
    requires Fencing(s, h, rest)
    ensures var t := FenceRestart(s, rest, epoch, incarnation);
            && Fencing(t, h, []) && Safe(s, h, t, h)
            && (!t.failed ==> Fenced(s, t, rest, epoch, incarnation))
    decreases |rest|
  {
    hide StoreInv, Cutting, Fenced, InterruptOne, Safe;
    FencingSelf(s, h, rest);
    if rest == [] {
      NothingFenced(s, epoch, incarnation);
    } else if !s.failed {
      if Terminal(rest[0].phase) {
        FencingSkips(s, h, rest);
        FenceRestartFences(s, h, rest[1..], epoch, incarnation);
        var t := FenceRestart(s, rest[1..], epoch, incarnation);
        if !t.failed { FencedSkip(s, h, t, rest, epoch, incarnation); }
      } else {
        var one := InterruptOne(s, rest[0], epoch, incarnation);
        InterruptOneFences(s, h, rest, epoch, incarnation);
        FenceRestartFences(one, h, rest[1..], epoch, incarnation);
        var t := FenceRestart(one, rest[1..], epoch, incarnation);
        SafeOn(s, h, one, h, t, h);
        if !t.failed {
          SafeFailed(one, h, t);
          FencedStep(s, h, one, t, rest, epoch, incarnation);
        }
      }
    }
  }

  lemma SafeFailed(s: StoreState, h: History, t: StoreState)
    requires Safe(s, h, t, h) && !t.failed
    ensures !s.failed
  {}

  lemma FencingSelf(s: StoreState, h: History, rest: seq<AttemptRecord>)
    requires Fencing(s, h, rest)
    ensures Safe(s, h, s, h)
    ensures s.failed ==> Fencing(s, h, [])
  {
    SafeSelf(s, h);
  }

  // ---- booting ----

  lemma BootCommit(s: StoreState, h: History, incarnation: Incarnation)
    requires StoreInv(s, h) && !s.failed
    ensures var booted := Commit(s, BootRecord(s.d, incarnation));
            && Safe(s, h, booted, h)
            && (!booted.failed ==>
                  && Fencing(booted, h, booted.d.attempts)
                  && booted.d.attempts == s.d.attempts && booted.d.epoch == s.d.epoch + 1 && booted.d.coordinator == incarnation
                  && booted.d.fences == s.d.fences)
  {
    var rec := BootRecord(s.d, incarnation);
    CommitSafe(s, h, rec);
    var booted := Commit(s, rec);
    if !booted.failed {
      assert booted.d.attempts == s.d.attempts;
      forall r | r in s.d.attempts ensures Lookup(s.d.attempts, r.subject, r.seqno) == Some(r) { LookupIs(s.d.attempts, r); }
      SafeInv(s, h, booted, h);
    }
  }

  lemma CutMeansBoundary(env: Env, d: Lineage.DurableState)
    requires Cutting(d, [])
    ensures Boundary(env, d)
    ensures forall r :: r in d.attempts ==> Terminal(r.phase) && !Active(d, r) && r.authority.epoch < d.epoch
  {}

  /** What a successful boot guarantees over the state `x` it found. */
  ghost predicate Restarted(x: Lineage.DurableState, limits: Limits, e: EngineState, interrupted: nat) {
    var d := e.store.d;
    && e.epoch == d.epoch == x.epoch + 1
    && interrupted == InFlight(x.attempts)
    && (forall r :: r in d.attempts ==> Terminal(r.phase) && !Active(d, r) && r.authority.epoch < e.epoch)
    && (forall r :: r in x.attempts ==> CutIn(d.attempts, r))
    && (|x.fences| + InFlight(x.attempts) <= limits.maxFences ==>
          d.fences == x.fences + FencesFor(x.attempts, e.epoch, e.incarnation, x.lastSeq + 1))
  }

  lemma BootSteps(env: Env, o: Options, incarnation: Incarnation, s: StoreState, h: History)
    requires StoreInv(s, h) && !s.failed && o.limits.store == s.limits
    ensures var r := BootStore(o, incarnation, s);
            match r
            case Opened(e, interrupted) => EngineInv(env, e, h) && Safe(s, h, e.store, h) && Restarted(s.d, s.limits, e, interrupted)
            case NotOpened(t, _, _) => Safe(s, h, t, h)
  {
    hide StoreInv, Commit, FenceRestart, Safe, Fencing, Fenced, Boundary, Settled, Active, InFlight, CutIn;
    SafeSelf(s, h);
    var booted := Commit(s, BootRecord(s.d, incarnation));
    BootCommit(s, h, incarnation);
    if !booted.failed {
      var fenced := FenceRestart(booted, booted.d.attempts, s.d.epoch + 1, incarnation);
      FenceRestartFences(booted, h, booted.d.attempts, s.d.epoch + 1, incarnation);
      SafeOn(s, h, booted, h, fenced, h);
      if !fenced.failed {
        FencingDone(env, fenced, h);
        BootedResult(s, booted, fenced, s.d.epoch + 1, incarnation);
        SafeLimits(s, h, fenced);
      }
    }
  }

  lemma SafeLimits(s: StoreState, h: History, t: StoreState)
    requires Safe(s, h, t, h)
    ensures t.limits == s.limits
  {}

  lemma FencingDone(env: Env, s: StoreState, h: History)
    requires Fencing(s, h, []) && !s.failed
    ensures StoreInv(s, h) && Boundary(env, s.d)
    ensures forall r :: r in s.d.attempts ==> Terminal(r.phase) && !Active(s.d, r) && r.authority.epoch < s.d.epoch
  {
    CutMeansBoundary(env, s.d);
  }

  lemma BootedResult(s: StoreState, booted: StoreState, t: StoreState, epoch: nat, incarnation: Incarnation)
    requires booted == Commit(s, BootRecord(s.d, incarnation)) && !booted.failed && epoch == s.d.epoch + 1
    requires Fenced(booted, t, booted.d.attempts, epoch, incarnation)
    ensures t.d.epoch == epoch && t.d.coordinator == incarnation
    ensures booted.d.attempts == s.d.attempts
    ensures forall r :: r in s.d.attempts ==> CutIn(t.d.attempts, r)
    ensures |s.d.fences| + InFlight(s.d.attempts) <= s.limits.maxFences ==>
              t.d.fences == s.d.fences + FencesFor(s.d.attempts, epoch, incarnation, s.d.lastSeq + 1)
  {
    hide CutIn, InFlight, FencesFor;
  }

  /** What a restart makes of one attempt of the medium, whatever positions the medium holds for it. */
  ghost predicate Recovered(a: seq<AttemptRecord>, r: AttemptRecord) {
    var now := Lookup(a, r.subject, r.seqno);
    now.Some? && Bare(now.value) == Bare(if Terminal(r.phase) then r else Cut(r))
  }

  /**
   * What a successful open guarantees over the state `disk` that the medium describes. With room for
   * them the new fences are exactly those of the attempts cut off, after the boot record.
   */
  ghost predicate Reopened(disk: Lineage.DurableState, limits: Limits, e: EngineState, interrupted: nat) {
    var d := e.store.d;
    && e.epoch == d.epoch == disk.epoch + 1
    && interrupted == InFlight(disk.attempts)
    && (forall r :: r in d.attempts ==> Terminal(r.phase) && !Active(d, r) && r.authority.epoch < e.epoch)
    && (forall r :: r in disk.attempts ==> Recovered(d.attempts, r))
    && (|disk.fences| + InFlight(disk.attempts) <= limits.maxFences ==>
          d.fences == disk.fences + FencesFor(disk.attempts, e.epoch, e.incarnation, disk.lastSeq + 1))
  }

  lemma {:induction false} AlikeFences(a: seq<AttemptRecord>, b: seq<AttemptRecord>, epoch: nat, incarnation: Incarnation, seqno: nat)
    requires Alike(a, b)
    ensures InFlight(a) == InFlight(b) && FencesFor(a, epoch, incarnation, seqno) == FencesFor(b, epoch, incarnation, seqno)
    decreases |a|
  {
    hide Bare;
    if a != [] {
      BareParts(a[0], b[0]);
      forall i | 0 <= i < |a[1..]| ensures Bare(a[1..][i]) == Bare(b[1..][i]) {
        assert Bare(a[i + 1]) == Bare(b[i + 1]);
      }
      AlikeFences(a[1..], b[1..], epoch, incarnation, if Terminal(a[0].phase) then seqno else seqno + 2);
    }
  }

  lemma CutBare(x: AttemptRecord, r: AttemptRecord)
    requires Bare(x) == Bare(r)
    ensures Bare(Cut(x)) == Bare(Cut(r))
  {
    BareParts(x, r);
    assert Bare(Cut(x)) == Bare(x).(phase := Cut(x).phase, reasons := Cut(x).reasons);
    assert Bare(Cut(r)) == Bare(r).(phase := Cut(r).phase, reasons := Cut(r).reasons);
  }

  lemma CutInRecovers(a: seq<AttemptRecord>, x: AttemptRecord, r: AttemptRecord)
    requires CutIn(a, x) && Bare(x) == Bare(r)
    ensures Recovered(a, r)
  {
    BareParts(x, r);
    CutBare(x, r);
    hide Bare, Cut;
  }

  /** A restart over what the medium restored is a restart over what it describes. */
  lemma RestartedIsReopened(x: Lineage.DurableState, disk: Lineage.DurableState, limits: Limits, e: EngineState, interrupted: nat)
    requires Restarted(x, limits, e, interrupted) && Alike(x.attempts, disk.attempts)
    requires x.fences == disk.fences && x.epoch == disk.epoch && x.lastSeq == disk.lastSeq
    ensures Reopened(disk, limits, e, interrupted)
  {
    hide Recovered, CutIn, Alike, FencesFor, InFlight, Active;
    AlikeFences(x.attempts, disk.attempts, e.epoch, e.incarnation, x.lastSeq + 1);
    AlikeSwap(x.attempts, disk.attempts);
    forall r | r in disk.attempts ensures Recovered(e.store.d.attempts, r) {
      var t := AlikeMember(disk.attempts, x.attempts, r);
      CutInRecovers(e.store.d.attempts, t, r);
    }
  }

  /** The topology that opening would put in force over the medium's. */
  ghost predicate OpenReinstatesNothing(h: History, was: StoreState, o: Options, fate: Fate) {
    var restored := OpenStore(was.medium, StoreOptionsOf(o), fate).0;
    restored.Restored? ==> NothingReinstated(h, was.disk.topology, restored.state.topology)
  }

  /** Opening, however it ends, leaves a sound lineage that comes after the previous process's. */
  lemma OpenSteps(env: Env, o: Options, incarnation: Incarnation, was: StoreState, h: History, fate: Fate)
    requires StoreInv(was, h) && |was.disk.attempts| <= o.limits.store.maxAttempts && OpenReinstatesNothing(h, was, o, fate)
    ensures var r := OpenEngine(o, incarnation, was, fate);
            match r
            case Opened(e, interrupted) =>
              && EngineInv(env, e, Grow(h, e.store.disk))
              && Evolves(was.disk, h, e.store.disk, Grow(h, e.store.disk))
              && e.store.limits == o.limits.store
              && Reopened(was.disk, o.limits.store, e, interrupted)
            case NotOpened(s, _, _) =>
              && StoreInv(s, Grow(h, s.disk))
              && Evolves(was.disk, h, s.disk, Grow(h, s.disk))
  {
    hide StoreInv, BootStore, OpenStore, NothingReinstated, Evolves, EngineInv, Grow, Restarted, Reopened, Alike;
    OpenOutcome(o, incarnation, was, fate);
    SafeSelf(was, h);
    SafeEvolves(was, h, was, h);
    var (restored, m) := OpenStore(was.medium, StoreOptionsOf(o), fate);
    if OptionsFault(o).None? && restored.Restored? {
      OpenedStoreInv(was, h, StoreOptionsOf(o), fate);
      var x := restored.state;
      var s := Lineage.StoreState(x, x, m, false, 0, o.limits.store, fate);
      var k := Grow(h, x);
      BootSteps(env, o, incarnation, s, k);
      BootDefinitions(o, incarnation, s);
      match BootStore(o, incarnation, s) {
        case Opened(e, interrupted) =>
          RestartedIsReopened(x, was.disk, o.limits.store, e, interrupted);
          SafeEvolves(s, k, e.store, k);
          EvolvesOn(was.disk, h, x, k, e.store.disk, k);
          GrowReads(h, x, e.store.disk);
        case NotOpened(t, _, _) =>
          SafeEvolves(s, k, t, k);
          EvolvesOn(was.disk, h, x, k, t.disk, k);
          GrowReads(h, x, t.disk);
      }
    }
  }

  lemma OpenOutcome(o: Options, incarnation: Incarnation, was: StoreState, fate: Fate)
    ensures var (restored, m) := OpenStore(was.medium, StoreOptionsOf(o), fate);
            OpenEngine(o, incarnation, was, fate)
            == if OptionsFault(o).Some? then NotOpened(was, OptionsFault(o).value.0, OptionsFault(o).value.1)
               else if restored.Barred? then NotOpened(was, restored.outcome, restored.code)
               else BootStore(o, incarnation, Lineage.StoreState(restored.state, restored.state, m, false, 0, o.limits.store, fate))
  {
    hide BootStore, OpenStore, OptionsFault;
  }

  lemma SafeEvolves(s: StoreState, h: History, t: StoreState, k: History)
    requires Safe(s, h, t, k)
    ensures Evolves(s.disk, h, t.disk, k) && StoreInv(t, k) && t.limits == s.limits
  {}

  lemma CommitDefinitions(s: StoreState, rec: Record)
    requires !Installs(rec) && s.disk.policy == s.d.policy && s.disk.topology == s.d.topology
    ensures var t := Commit(s, rec);
            && t.disk.policy == s.disk.policy && t.disk.topology == s.disk.topology
            && t.d.policy == s.d.policy && t.d.topology == s.d.topology
  {}

  lemma {:induction false} FenceRestartDefinitions(s: StoreState, rest: seq<AttemptRecord>, epoch: nat, incarnation: Incarnation)
    requires s.disk.policy == s.d.policy && s.disk.topology == s.d.topology
    ensures var t := FenceRestart(s, rest, epoch, incarnation);
            t.disk.policy == s.disk.policy && t.disk.topology == s.disk.topology
    decreases |rest|
  {
    hide Commit;
    if rest != [] && !s.failed {
      if Terminal(rest[0].phase) {
        FenceRestartDefinitions(s, rest[1..], epoch, incarnation);
      } else {
        var put := Commit(s, AttemptPut(Interruption, Cut(rest[0])));
        CommitDefinitions(s, AttemptPut(Interruption, Cut(rest[0])));
        CommitDefinitions(put, FencePut(FenceRecord(PreRestartAuthority, rest[0].subject, rest[0].generation, rest[0].seqno, epoch, incarnation, 0, [])));
        FenceRestartDefinitions(InterruptOne(s, rest[0], epoch, incarnation), rest[1..], epoch, incarnation);
      }
    }
  }

  lemma BootDefinitions(o: Options, incarnation: Incarnation, s: StoreState)
    requires s.disk == s.d
    ensures var r := BootStore(o, incarnation, s);
            var t := if r.Opened? then r.e.store else r.store;
            t.disk.policy == s.disk.policy && t.disk.topology == s.disk.topology
  {
    hide Commit, FenceRestart;
    var booted := Commit(s, BootRecord(s.d, incarnation));
    CommitDefinitions(s, BootRecord(s.d, incarnation));
    FenceRestartDefinitions(booted, booted.d.attempts, s.d.epoch + 1, incarnation);
  }
}
