/** How one durable state grows out of another along legal commits: epochs rise, attempts climb, blocked pairs stay blocked. */
module Lifecycle {
  import opened Basics
  import opened Records
  import opened Lineage
  import opened Table
  import opened Invariant

  /** A pair that was defined once and is not now. */
  predicate Gone(d: DurableState, h: History, p: Pair) {
    p in h.used && p !in Pairs(d.topology)
  }

  /** An attempt stands still or climbs. */
  predicate Moves(r: AttemptRecord, t: AttemptRecord) { Bare(r) == Bare(t) || Climbs(r, t) }

  /** The table's attempt under a key, if it is of this generation. */
  predicate Holds(a: seq<AttemptRecord>, subject: LinkKey, generation: nat, seqno: nat) {
    var now := Lookup(a, subject, seqno);
    now.Some? && now.value.generation == generation
  }

  /**
   * What may become of an attempt: it stands as it was or further up its lifecycle, or an attempt of
   * another generation has overwritten it after its own was left.
   */
  ghost predicate Continues(d: DurableState, h: History, r: AttemptRecord) {
    var now := Lookup(d.attempts, r.subject, r.seqno);
    now.Some?
    && if now.value.generation == r.generation then Moves(r, now.value) else Gone(d, h, Pair(r.subject, r.generation))
  }

  /**
   * `e` under the history `k` comes after `d` under the history `h`: attempts go on as they may, a
   * generation that was left stays left, and no attempt of it is made again.
   */
  ghost predicate Evolves(d: DurableState, h: History, e: DurableState, k: History) {
    && d.epoch <= e.epoch
    && h.used <= k.used && h.budget <= k.budget
    && (forall r :: r in d.attempts ==> Continues(e, k, r))
    && (forall p :: Gone(d, h, p) ==> Gone(e, k, p))
    && (forall x :: x in e.attempts && Gone(d, h, Pair(x.subject, x.generation)) ==> Holds(d.attempts, x.subject, x.generation, x.seqno))
  }

  lemma ContinuesOn(d: DurableState, h: History, e: DurableState, k: History, r: AttemptRecord)
    requires Evolves(d, h, e, k) && Continues(d, h, r)
    ensures Continues(e, k, r)
  {
    hide Gone, Moves;
    LookupSome(d.attempts, r.subject, r.seqno);
    var now := Lookup(d.attempts, r.subject, r.seqno).value;
    assert Continues(e, k, now);
    LookupSome(e.attempts, r.subject, r.seqno);
    var then_ := Lookup(e.attempts, r.subject, r.seqno).value;
    if then_.generation == r.generation && now.generation == r.generation {
      MovesOn(r, now, then_);
    }
  }

  lemma MovesOn(r: AttemptRecord, t: AttemptRecord, u: AttemptRecord)
    requires Moves(r, t) && Moves(t, u)
    ensures Moves(r, u)
  {
    if Bare(r) == Bare(t) { RankReads(r, t); }
    if Bare(t) == Bare(u) { RankReads(t, u); }
  }

  lemma EvolvesOn(d: DurableState, h: History, e: DurableState, k: History, f: DurableState, m: History)
    requires Evolves(d, h, e, k) && Evolves(e, k, f, m)
    ensures Evolves(d, h, f, m)
  {
    forall r | r in d.attempts ensures Continues(f, m, r) {
      ContinuesOn(e, k, f, m, r);
    }
    hide Continues, Gone;
    forall x | x in f.attempts && Gone(d, h, Pair(x.subject, x.generation)) ensures Holds(d.attempts, x.subject, x.generation, x.seqno) {
      LookupSome(e.attempts, x.subject, x.seqno);
    }
  }

  lemma EvolvesSelf(d: DurableState, h: History)
    requires UniqueKeys(d.attempts)
    ensures Evolves(d, h, d, h)
  {
    forall r | r in d.attempts ensures Continues(d, h, r) {
      LookupIs(d.attempts, r);
    }
    hide Gone;
  }

  lemma UpsertContinues(d: DurableState, h: History, r: AttemptRecord, e: DurableState, x: AttemptRecord)
    requires UniqueKeys(d.attempts) && x in d.attempts && e.attempts == Upsert(d.attempts, r)
    requires SameKey(x, r) ==> if x.generation == r.generation then Climbs(x, r) else Gone(e, h, Pair(x.subject, x.generation))
    ensures Continues(e, h, x)
  {
    UpsertMembers(d.attempts, r);
    LookupIs(e.attempts, r);
    if !SameKey(x, r) { LookupIs(e.attempts, x); }
  }

  lemma PutEvolves(d: DurableState, h: History, kind: PutKind, r: AttemptRecord, limits: Limits)
    requires Inv(d, h) && Legal(d, h, AttemptPut(kind, r), limits)
    ensures Evolves(d, h, After(d, AttemptPut(kind, r), limits), h)
  {
    PutEffect(d, h, kind, r, limits);
    PutHolds(d, h, kind, r, limits);
    hide Holds;
    var t := Stored(kind, r, d.lastSeq + 1);
    var e := After(d, AttemptPut(kind, r), limits);
    forall x | x in d.attempts ensures Continues(e, h, x) {
      LookupIs(d.attempts, x);
      if SameKey(x, t) {
        if kind.Create? {
          NewKey(d, h, r);
          OverwrittenIsGone(d, h, r, x);
        }
      }
      UpsertContinues(d, h, t, e, x);
    }
  }

  /** A put makes no attempt of a generation that was left. */
  lemma PutHolds(d: DurableState, h: History, kind: PutKind, r: AttemptRecord, limits: Limits)
    requires Inv(d, h) && Legal(d, h, AttemptPut(kind, r), limits)
    ensures forall x :: x in Upsert(d.attempts, Stored(kind, r, d.lastSeq + 1)) && Gone(d, h, Pair(x.subject, x.generation)) ==>
              Holds(d.attempts, x.subject, x.generation, x.seqno)
  {
    hide Upsert, Pairs, Led, Numbered, Budgeted, Known, Placed, Climbs, Occupies;
    var t := Stored(kind, r, d.lastSeq + 1);
    UpsertMembers(d.attempts, t);
    PairsMeans(d.topology, r.subject, r.generation);
    forall x | x in Upsert(d.attempts, t) && Gone(d, h, Pair(x.subject, x.generation)) ensures Holds(d.attempts, x.subject, x.generation, x.seqno) {
      if x != t { LookupIs(d.attempts, x); }
    }
  }

  /** What a creation overwrites belonged to a generation that was left. */
  lemma OverwrittenIsGone(d: DurableState, h: History, r: AttemptRecord, x: AttemptRecord)
    requires Known(d, h) && x in d.attempts && Defines(d.topology, r.subject, r.generation)
    requires x.subject == r.subject && x.generation != r.generation
    ensures Gone(d, h, Pair(x.subject, x.generation))
  {
    PairsMeans(d.topology, r.subject, r.generation);
    PairsMeans(d.topology, x.subject, x.generation);
  }

  lemma SameTableEvolves(d: DurableState, h: History, e: DurableState, k: History)
    requires UniqueKeys(d.attempts) && e.attempts == d.attempts && d.epoch <= e.epoch
    requires h.used <= k.used && h.budget <= k.budget
    requires forall p :: Gone(d, h, p) ==> Gone(e, k, p)
    ensures Evolves(d, h, e, k)
  {
    forall r | r in d.attempts ensures Continues(e, k, r) {
      LookupIs(d.attempts, r);
    }
  }

  /** Every legal commit moves the state forward. */
  lemma CommitEvolves(d: DurableState, h: History, rec: Record, limits: Limits)
    requires Inv(d, h) && Legal(d, h, rec, limits)
    ensures Evolves(d, h, After(d, rec, limits), Grow(h, After(d, rec, limits)))
  {
    var e := After(d, rec, limits);
    if rec.AttemptPut? {
      PutEvolves(d, h, rec.kind, rec.attempt, limits);
      PutEffect(d, h, rec.kind, rec.attempt, limits);
      GrowSame(d, h);
    } else {
      GrowSame(d, h);
      SameTableEvolves(d, h, e, Grow(h, e));
    }
  }

  // ---- a pair that revalidation could not resolve ----

  /** No attempt of this pair may ever be granted again. */
  ghost predicate Blocked(d: DurableState, h: History, p: Pair) {
    Gone(d, h, p) || exists r :: r in d.attempts && OfPair(r, p.subject, p.generation) && Stuck(r)
  }

  lemma BlockedForever(d: DurableState, h: History, e: DurableState, k: History, p: Pair)
    requires Evolves(d, h, e, k) && Blocked(d, h, p)
    ensures Blocked(e, k, p)
  {
    if !Gone(d, h, p) {
      var r :| r in d.attempts && OfPair(r, p.subject, p.generation) && Stuck(r);
      assert Continues(e, k, r);
      LookupSome(e.attempts, r.subject, r.seqno);
      if !Gone(e, k, p) {
        var now := Lookup(e.attempts, r.subject, r.seqno).value;
        assert Bare(now) == Bare(r);
        assert Stuck(now);
      }
    }
  }

  /** Of one pair only one attempt can stand in the way of another. */
  lemma OccupiersMeet(d: DurableState, h: History, r: AttemptRecord, x: AttemptRecord)
    requires Inv(d, h) && r in d.attempts && x in d.attempts && SamePair(r, x) && Occupies(d, r)
    requires Occupies(d, x) || r.seqno <= x.seqno
    ensures r == x
  {
    hide Occupies, Numbered, Known, Budgeted, Placed, EpochBounded;
    assert r.seqno == x.seqno;
    LookupIs(d.attempts, r);
    LookupIs(d.attempts, x);
  }

  /** While a blocked pair is current, its latest attempt is the stuck one and nothing of it is active. */
  lemma BlockedShutsTheGate(d: DurableState, h: History, p: Pair)
    requires Inv(d, h) && Blocked(d, h, p) && p in Pairs(d.topology)
    ensures Latest(d.attempts, p.subject, p.generation).Some? && Stuck(Latest(d.attempts, p.subject, p.generation).value)
    ensures ActiveAuthority(d, p.subject, p.generation).None?
  {
    hide Inv, Pairs;
    var r :| r in d.attempts && OfPair(r, p.subject, p.generation) && Stuck(r);
    var latest := Latest(d.attempts, p.subject, p.generation).value;
    OccupiersMeet(d, h, r, latest);
    forall x | x in d.attempts && OfPair(x, p.subject, p.generation) ensures !Active(d, x) {
      if Active(d, x) { OccupiersMeet(d, h, r, x); }
    }
  }

  // ---- the measure ----

  /** Under this key stands an attempt of this generation in both tables, and not the same. */
  predicate Updated(a: seq<AttemptRecord>, b: seq<AttemptRecord>, subject: LinkKey, generation: nat, seqno: nat) {
    && Holds(a, subject, generation, seqno) && Holds(b, subject, generation, seqno)
    && Bare(Lookup(a, subject, seqno).value) != Bare(Lookup(b, subject, seqno).value)
  }

  /** How often the attempt of this generation under this key may still change. */
  function Headroom(d: DurableState, h: History, subject: LinkKey, generation: nat, seqno: nat): nat {
    if Holds(d.attempts, subject, generation, seqno) then
      RankIsBounded(Lookup(d.attempts, subject, seqno).value);
      TOP_RANK - Rank(Lookup(d.attempts, subject, seqno).value)
    else if Gone(d, h, Pair(subject, generation)) then 0
    else TOP_RANK
  }

  /** Every change of an attempt uses up headroom, and nothing gives any back. */
  lemma HeadroomFalls(d: DurableState, h: History, e: DurableState, k: History, subject: LinkKey, generation: nat, seqno: nat)
    requires Evolves(d, h, e, k)
    ensures (if Updated(d.attempts, e.attempts, subject, generation, seqno) then 1 else 0) + Headroom(e, k, subject, generation, seqno)
            <= Headroom(d, h, subject, generation, seqno)
  {
    hide Gone, Rank, Bare, Moves;
    LookupSome(d.attempts, subject, seqno);
    LookupSome(e.attempts, subject, seqno);
    if Holds(d.attempts, subject, generation, seqno) {
      var r := Lookup(d.attempts, subject, seqno).value;
      assert Continues(e, k, r);
      if Holds(e.attempts, subject, generation, seqno) { MoveRaises(r, Lookup(e.attempts, subject, seqno).value); }
    }
  }

  lemma RankIsBounded(r: AttemptRecord)
    ensures Rank(r) <= TOP_RANK
  {}

  lemma MoveRaises(r: AttemptRecord, t: AttemptRecord)
    requires Moves(r, t)
    ensures Rank(r) + (if Bare(t) == Bare(r) then 0 else 1) <= Rank(t)
  {
    if Bare(r) == Bare(t) { RankReads(r, t); }
  }

  lemma RankReads(r: AttemptRecord, t: AttemptRecord)
    requires Bare(r) == Bare(t)
    ensures Rank(r) == Rank(t)
  {
    assert Bare(r).phase == r.phase && Bare(t).phase == t.phase;
    assert Bare(r).revalidated == r.revalidated && Bare(t).revalidated == t.revalidated;
  }
}
