/** Every call of the engine, whatever becomes of its writes, keeps the invariant and moves the lineage forward. */
module EngineSafety {
  import opened Basics
  import opened Records
  import opened Lineage
  import opened Table
  import opened Invariant
  import opened Lifecycle
  import opened Refinement
  import opened StoreSafety
  import opened Protocol
  import Evidence
  import Verdicts
  import Resolution
  import Selector

  /** An authority vector that carries the current definitions. */
  predicate Bound(env: Env, d: Lineage.DurableState, a: AuthorityVector) {
    && a.policyGeneration == d.policy.generation && a.policyDigest == env.h.policy(d.policy)
    && a.topologyGeneration == d.topology.generation && a.topologyDigest == env.h.topology(d.topology)
  }

  /** An attempt as it may stand between two calls. */
  predicate Settled(env: Env, d: Lineage.DurableState, r: AttemptRecord) {
    && (!Terminal(r.phase) ==> !r.phase.Evaluated? && r.authority.epoch == d.epoch && r.authority.coordinator == d.coordinator)
    && (Active(d, r) ==> Bound(env, d, r.authority))
  }

  ghost predicate Boundary(env: Env, d: Lineage.DurableState) {
    forall r :: r in d.attempts ==> Settled(env, d, r)
  }

  ghost predicate Matched(e: EngineState) {
    e.epoch == e.store.d.epoch && e.incarnation == e.store.d.coordinator && e.options.limits.store == e.store.limits
  }

  ghost predicate EngineInv(env: Env, e: EngineState, h: History) {
    && StoreInv(e.store, h)
    && Matched(e)
    && (!e.store.failed ==> Boundary(env, e.store.d))
  }

  /** A call took the engine soundly from `e` under `h` to `f`. */
  ghost predicate Stepped(env: Env, e: EngineState, h: History, f: EngineState) {
    EngineInv(env, f, Grow(h, f.store.disk)) && Safe(e.store, h, f.store, Grow(h, f.store.disk))
  }

  // ---- bookkeeping ----

  /** Only bookkeeping happened between `e` and `f`. */
  ghost predicate Calm(e: EngineState, h: History, f: EngineState) {
    && Safe(e.store, h, f.store, h)
    && SameView(e.store.d, f.store.d)
    && f.epoch == e.epoch && f.incarnation == e.incarnation && f.options == e.options && f.tick == e.tick && f.book == e.book
  }

  lemma CalmOn(e: EngineState, h: History, f: EngineState, g: EngineState)
    requires Calm(e, h, f) && Calm(f, h, g)
    ensures Calm(e, h, g)
  {
    hide Safe;
    SafeOn(e.store, h, f.store, h, g.store, h);
  }

  lemma CalmSelf(e: EngineState, h: History)
    requires StoreInv(e.store, h)
    ensures Calm(e, h, e)
  {
    SafeSelf(e.store, h);
  }

  lemma SafeInv(s: StoreState, h: History, t: StoreState, k: History)
    requires Safe(s, h, t, k)
    ensures StoreInv(t, k) && Grow(k, t.disk) == k
  {
    SafeSelf(t, k);
  }

  lemma BoundaryReads(env: Env, d: Lineage.DurableState, e: Lineage.DurableState)
    requires SameView(d, e) && Boundary(env, d)
    ensures Boundary(env, e)
  {}

  /** Bookkeeping after a sound step leaves it a sound step. */
  lemma CalmKeeps(env: Env, e: EngineState, h: History, f: EngineState)
    requires EngineInv(env, e, h) && Calm(e, h, f)
    ensures EngineInv(env, f, h) && Stepped(env, e, h, f)
  {
    SafeInv(e.store, h, f.store, h);
    if !f.store.failed { BoundaryReads(env, e.store.d, f.store.d); }
    hide StoreInv, Boundary, Evolves;
  }

  lemma WriteCalm(e: EngineState, h: History, rec: Record)
    requires StoreInv(e.store, h) && Bookkeeping(rec)
    ensures Calm(e, h, Write(e, rec))
  {
    BookkeepingSafe(e.store, h, rec);
  }

  lemma CheckpointCalm(e: EngineState, h: History)
    requires StoreInv(e.store, h)
    ensures Calm(e, h, TakeCheckpoint(e).0) && Calm(e, h, MaybeCheckpoint(e))
  {
    CheckpointSafe(e.store, h);
    CalmSelf(e, h);
  }

  lemma DecisionCalm(env: Env, e: EngineState, h: History, d: Decision)
    requires StoreInv(e.store, h)
    ensures Calm(e, h, CommitDecision(env, e, d).0)
  {
    hide StoreInv, Write;
    WriteCalm(e, h, DecisionCommit(d));
  }

  lemma IdempotencyCalm(env: Env, e: EngineState, h: History, d: Decision, key: Digest)
    requires StoreInv(e.store, h)
    ensures Calm(e, h, CommitIdempotency(env, e, d, key))
  {
    hide StoreInv, Write;
    WriteCalm(e, h, IdempotencyIndex(EntryFor(d, key)));
    CalmSelf(e, h);
  }

  lemma CalmInv(e: EngineState, h: History, f: EngineState)
    requires Calm(e, h, f)
    ensures StoreInv(f.store, h)
  {}

  lemma RememberCalm(e: EngineState, h: History, f: EngineState, d: Decision)
    requires Calm(e, h, f)
    ensures Calm(e, h, Remember(f, d))
  {
    hide Safe;
  }

  lemma SettleDurableCalm(env: Env, e: EngineState, h: History, d: Decision, key: Digest)
    requires StoreInv(e.store, h)
    ensures Calm(e, h, SettleDurable(env, e, d, key).0)
  {
    hide StoreInv, Calm, CommitDecision, CommitIdempotency, MaybeCheckpoint, Remember;
    var (decided, written) := CommitDecision(env, e, d);
    DecisionCalm(env, e, h, d);
    CalmInv(e, h, decided);
    var indexed := CommitIdempotency(env, decided, written, key);
    IdempotencyCalm(env, decided, h, written, key);
    CalmInv(decided, h, indexed);
    CheckpointCalm(indexed, h);
    CalmOn(e, h, decided, indexed);
    CalmOn(e, h, indexed, MaybeCheckpoint(indexed));
    RememberCalm(e, h, MaybeCheckpoint(indexed), written);
  }

  lemma SettleUndurableCalm(env: Env, e: EngineState, h: History, d: Decision)
    requires StoreInv(e.store, h)
    ensures Calm(e, h, SettleUndurable(env, e, d).0)
  {
    CalmSelf(e, h);
    hide Calm, Remember;
    var settled := d.(durable := false);
    RememberCalm(e, h, e, settled.(decisionId := env.h.decision(settled)));
  }

  /** The clock alone moves nothing. */
  lemma TickKeeps(env: Env, e: EngineState, h: History)
    requires EngineInv(env, e, h)
    ensures EngineInv(env, e.(tick := e.tick + 1), h)
    ensures Stepped(env, e, h, e) && Stepped(env, e, h, e.(tick := e.tick + 1))
  {
    SafeSelf(e.store, h);
  }

  lemma SteppedReads(env: Env, e: EngineState, h: History, f: EngineState, g: EngineState)
    requires Stepped(env, e, h, g) && f.store == e.store
    ensures Stepped(env, f, h, g)
  {}

  // ---- puts ----

  /** An update that keeps the record's identity and climbs is legal. */
  lemma UpdateIsLegal(d: Lineage.DurableState, h: History, kind: PutKind, was: AttemptRecord, r: AttemptRecord, limits: Limits)
    requires Inv(d, h) && |d.attempts| <= limits.maxAttempts && !kind.Create? && PutAllowed(kind, r.phase)
    requires Lookup(d.attempts, was.subject, was.seqno) == Some(was)
    requires SameKey(was, r) && SamePair(was, r) && r.createSeq == was.createSeq
    requires Occupies(d, r) ==> Occupies(d, was)
    requires r.authority.epoch <= d.epoch
    requires Climbs(was, r)
    ensures Legal(d, h, AttemptPut(kind, r), limits)
  {
    LookupSome(d.attempts, was.subject, was.seqno);
    assert was in d.attempts;
  }

  lemma FoundIs(d: Lineage.DurableState, h: History, subject: LinkKey, seqno: nat)
    requires Inv(d, h) && Lookup(d.attempts, subject, seqno).Some?
    ensures var r := Lookup(d.attempts, subject, seqno).value;
            && r in d.attempts && r.subject == subject && r.seqno == seqno
            && r.authority.epoch <= d.epoch
  {
    LookupSome(d.attempts, subject, seqno);
  }

  lemma PutView(d: Lineage.DurableState, h: History, kind: PutKind, r: AttemptRecord, limits: Limits)
    requires Inv(d, h) && Legal(d, h, AttemptPut(kind, r), limits)
    ensures var f := After(d, AttemptPut(kind, r), limits);
            && f.policy == d.policy && f.topology == d.topology && f.epoch == d.epoch && f.coordinator == d.coordinator
            && UniqueKeys(f.attempts)
            && (forall x :: x in f.attempts <==> x == Stored(kind, r, d.lastSeq + 1) || (x in d.attempts && !SameKey(x, r)))
  {
    PutEffect(d, h, kind, r, limits);
    UpsertMembers(d.attempts, Stored(kind, r, d.lastSeq + 1));
  }

  lemma SettledReads(env: Env, d: Lineage.DurableState, e: Lineage.DurableState, r: AttemptRecord, t: AttemptRecord)
    requires d.policy == e.policy && d.topology == e.topology && d.epoch == e.epoch && d.coordinator == e.coordinator
    requires Bare(r) == Bare(t)
    ensures Settled(env, d, r) == Settled(env, e, t)
  {
    assert Bare(r).phase == r.phase && Bare(t).phase == t.phase;
    assert Bare(r).authority == r.authority && Bare(t).authority == t.authority;
  }

  lemma StoredBare(kind: PutKind, r: AttemptRecord, seqno: nat)
    ensures Bare(Stored(kind, r, seqno)) == Bare(r)
  {}

  /** A settled record put into a settled table leaves it settled. */
  lemma PutBoundary(env: Env, d: Lineage.DurableState, h: History, kind: PutKind, r: AttemptRecord, limits: Limits)
    requires Inv(d, h) && Legal(d, h, AttemptPut(kind, r), limits)
    requires Settled(env, d, r)
    requires forall x :: x in d.attempts && !SameKey(x, r) ==> Settled(env, d, x)
    ensures Boundary(env, After(d, AttemptPut(kind, r), limits))
  {
    hide Inv, Legal, After, Settled, Bare;
    PutView(d, h, kind, r, limits);
    var f := After(d, AttemptPut(kind, r), limits);
    StoredBare(kind, r, d.lastSeq + 1);
    SettledReads(env, d, f, r, Stored(kind, r, d.lastSeq + 1));
    forall x | x in f.attempts ensures Settled(env, f, x) {
      SettledReads(env, d, f, x, x);
    }
  }

  /** A legal put of a settled record, however its write ends. */
  lemma PutSteps(env: Env, e: EngineState, h: History, kind: PutKind, r: AttemptRecord)
    requires StoreInv(e.store, h) && Matched(e)
    requires !e.store.failed ==>
               && Legal(e.store.d, h, AttemptPut(kind, r), e.store.limits)
               && Settled(env, e.store.d, r)
               && (forall x :: x in e.store.d.attempts && !SameKey(x, r) ==> Settled(env, e.store.d, x))
    ensures Stepped(env, e, h, Write(e, AttemptPut(kind, r)))
    ensures EngineInv(env, Write(e, AttemptPut(kind, r)), h)
    ensures Grow(h, Write(e, AttemptPut(kind, r)).store.disk) == h
  {
    hide Legal, Inv, Describes, Evolves, Settled, Boundary, After, Grow;
    var rec := AttemptPut(kind, r);
    CommitSafe(e.store, h, rec);
    var f := Write(e, rec);
    if !f.store.failed {
      PutBoundary(env, e.store.d, h, kind, r, e.store.limits);
      PutView(e.store.d, h, kind, r, e.store.limits);
      assert f.store.d == After(e.store.d, rec, e.store.limits);
    } else {
      assert f.store.d == e.store.d;
    }
  }

  /** Two sound steps are one. */
  lemma StepOn(env: Env, e: EngineState, h: History, f: EngineState, g: EngineState)
    requires Stepped(env, e, h, f) && Stepped(env, f, Grow(h, f.store.disk), g)
    requires Grow(Grow(h, f.store.disk), g.store.disk) == Grow(h, g.store.disk)
    ensures Stepped(env, e, h, g)
  {
    hide EngineInv, Safe, Grow;
    SafeOn(e.store, h, f.store, Grow(h, f.store.disk), g.store, Grow(Grow(h, f.store.disk), g.store.disk));
  }

  /** A sound put followed by bookkeeping is a sound step. */
  lemma PutThenCalm(env: Env, e: EngineState, h: History, f: EngineState, g: EngineState)
    requires Stepped(env, e, h, f) && EngineInv(env, f, h) && Grow(h, f.store.disk) == h
    requires Calm(f, h, g)
    ensures Stepped(env, e, h, g)
    ensures EngineInv(env, g, h) && Grow(h, g.store.disk) == h
  {
    CalmKeeps(env, f, h, g);
    SafeInv(f.store, h, g.store, h);
    hide EngineInv, Safe, Grow;
    StepOn(env, e, h, f, g);
  }

  lemma PutThenSettleSteps(env: Env, e: EngineState, h: History, kind: PutKind, r: AttemptRecord, d: Decision, checkpoints: bool)
    requires EngineInv(env, e, h)
    requires !e.store.failed ==> Legal(e.store.d, h, AttemptPut(kind, r), e.store.limits) && Settled(env, e.store.d, r)
    ensures Stepped(env, e, h, PutThenSettle(env, e, kind, r, d, checkpoints).0)
  {
    hide StoreInv, Legal, Settled, Safe, Write, CommitDecision, MaybeCheckpoint, Remember, Stepped, Calm, Grow;
    PutSteps(env, e, h, kind, r);
    var put := Write(e, AttemptPut(kind, r));
    if !put.store.failed {
      var (decided, written) := CommitDecision(env, put, d);
      DecisionCalm(env, put, h, d);
      CalmInv(put, h, decided);
      CheckpointCalm(decided, h);
      CalmOn(put, h, decided, MaybeCheckpoint(decided));
      var last := if checkpoints then MaybeCheckpoint(decided) else decided;
      RememberCalm(put, h, last, written);
      PutThenCalm(env, e, h, put, Remember(last, written));
    }
  }

  lemma UndurableSteps(env: Env, e: EngineState, h: History, d: Decision)
    requires EngineInv(env, e, h)
    ensures Stepped(env, e, h, SettleUndurable(env, e, d).0)
  {
    hide StoreInv, SettleUndurable, Calm, Stepped;
    SettleUndurableCalm(env, e, h, d);
    CalmKeeps(env, e, h, SettleUndurable(env, e, d).0);
  }

  lemma WriteSucceeds(e: EngineState, rec: Record)
    requires !Write(e, rec).store.failed
    ensures !e.store.failed
    ensures Write(e, rec).store.d == After(e.store.d, rec, e.store.limits)
    ensures Write(e, rec).store.limits == e.store.limits
  {}

  /** What a put leaves under its key. */
  lemma PutFound(d: Lineage.DurableState, h: History, kind: PutKind, r: AttemptRecord, limits: Limits)
    requires Inv(d, h) && Legal(d, h, AttemptPut(kind, r), limits)
    ensures Lookup(After(d, AttemptPut(kind, r), limits).attempts, r.subject, r.seqno) == Some(Stored(kind, r, d.lastSeq + 1))
  {
    PutView(d, h, kind, r, limits);
    hide Inv, Legal, After;
    LookupIs(After(d, AttemptPut(kind, r), limits).attempts, Stored(kind, r, d.lastSeq + 1));
  }

  // ---- plans ----

  /** The table's record of an attempt, as it may stand between calls. */
  ghost predicate Found(env: Env, e: EngineState, r: AttemptRecord) {
    Lookup(e.store.d.attempts, r.subject, r.seqno) == Some(r)
  }

  /** An update of a found record that a plan may make. */
  ghost predicate Sensible(env: Env, e: EngineState, h: History, plan: Plan) {
    match plan
    case Put(kind, r, _, _) => !e.store.failed ==> Legal(e.store.d, h, AttemptPut(kind, r), e.store.limits) && Settled(env, e.store.d, r)
    case CompleteEffect(r, _) =>
      r.phase.Verified? && (!e.store.failed ==> Legal(e.store.d, h, AttemptPut(Update, r), e.store.limits) && Settled(env, e.store.d, r))
    case Revert(_, r, _, _) => !e.store.failed ==> Legal(e.store.d, h, AttemptPut(PutKind.Rollback, r), e.store.limits) && Settled(env, e.store.d, r)
    case _ => true
  }

  /** Committing what was just verified is legal. */
  lemma CompletionIsLegal(env: Env, e: EngineState, h: History, was: AttemptRecord, r: AttemptRecord)
    requires EngineInv(env, e, h) && !e.store.failed
    requires Found(env, e, was) && was.phase.Verified?
    requires r == was.(phase := Phase.Committed, updateSeq := r.updateSeq)
    ensures Legal(e.store.d, h, AttemptPut(Completion, r), e.store.limits)
    ensures Settled(env, e.store.d, r)
  {
    hide Inv, Legal;
    FoundIs(e.store.d, h, was.subject, was.seqno);
    assert Settled(env, e.store.d, was);
    UpdateIsLegal(e.store.d, h, Completion, was, r, e.store.limits);
  }

  lemma EffectSteps(env: Env, e: EngineState, h: History, v: AttemptRecord, d: Decision)
    requires EngineInv(env, e, h) && Sensible(env, e, h, CompleteEffect(v, d))
    ensures Stepped(env, e, h, PutEffectThenCommit(env, e, v, d).0)
  {
    var put := Write(e, AttemptPut(Update, v));
    hide Legal, Inv, Settled, Write, Stepped, PutThenSettle, Grow, EngineInv, StoreInv;
    EngineInvMeans(env, e, h);
    PutSteps(env, e, h, Update, v);
    if !put.store.failed {
      WriteSucceeds(e, AttemptPut(Update, v));
      PutFound(e.store.d, h, Update, v, e.store.limits);
      var done := v.(phase := Phase.Committed);
      CompletionIsLegal(env, put, h, Stored(Update, v, e.store.d.lastSeq + 1), done);
      PutThenSettleSteps(env, put, h, Completion, done, d, true);
      StepOn(env, e, h, put, PutThenSettle(env, put, Completion, done, d, true).0);
    }
  }

  lemma EngineInvMeans(env: Env, e: EngineState, h: History)
    requires EngineInv(env, e, h)
    ensures StoreInv(e.store, h) && Matched(e) && Inv(e.store.d, h)
    ensures !e.store.failed ==> forall x :: x in e.store.d.attempts ==> Settled(env, e.store.d, x)
  {}

  /** A fence or a mark: written without a change to the view. */
  lemma FenceCalm(e: EngineState, h: History, f: FenceRecord)
    requires StoreInv(e.store, h) && f.seqno == 0
    ensures Calm(e, h, Write(e, FencePut(f)))
  {
    CommitSafe(e.store, h, FencePut(f));
  }

  lemma RevertSteps(env: Env, e: EngineState, h: History, was: AttemptRecord, r: AttemptRecord, d: Decision, key: Digest)
    requires EngineInv(env, e, h) && Sensible(env, e, h, Revert(was, r, d, key))
    ensures Stepped(env, e, h, RevertAuthority(env, e, was, r, d, key).0)
  {
    var put := Write(e, AttemptPut(PutKind.Rollback, r));
    hide Legal, Inv, Settled, Write, Stepped, Grow, EngineInv, StoreInv, Calm, CommitDecision, CommitIdempotency, Remember;
    EngineInvMeans(env, e, h);
    PutSteps(env, e, h, PutKind.Rollback, r);
    if !put.store.failed {
      EngineInvMeans(env, put, h);
      var fenced := Write(put, Protocol.Fence(e, RollbackRevoked, was));
      FenceCalm(put, h, Protocol.Fence(e, RollbackRevoked, was).fence);
      CalmInv(put, h, fenced);
      var (decided, written) := CommitDecision(env, fenced, d);
      DecisionCalm(env, fenced, h, d);
      CalmInv(fenced, h, decided);
      CalmOn(put, h, fenced, decided);
      var indexed := CommitIdempotency(env, decided, written, key);
      IdempotencyCalm(env, decided, h, written, key);
      CalmOn(put, h, decided, indexed);
      RememberCalm(put, h, indexed, written);
      PutThenCalm(env, e, h, put, fenced);
      PutThenCalm(env, e, h, put, Remember(indexed, written));
    }
  }

  /** A sensible plan is carried out soundly. */
  lemma ExecuteSteps(env: Env, e: EngineState, h: History, plan: Plan)
    requires EngineInv(env, e, h) && Sensible(env, e, h, plan)
    ensures Stepped(env, e, h, Execute(env, e, plan).0)
  {
    hide EngineInv, Stepped, SettleUndurable, PutThenSettle, PutEffectThenCommit, RevertAuthority, Legal, Settled;
    match plan
    case Reject(_, _) => StandsStill(env, e, h);
    case Repeat(_) => StandsStill(env, e, h);
    case Report(d) => UndurableSteps(env, e, h, d);
    case Put(kind, r, d, checkpoints) => PutThenSettleSteps(env, e, h, kind, r, d, checkpoints);
    case CompleteEffect(v, d) => EffectSteps(env, e, h, v, d);
    case Revert(was, r, d, key) => RevertSteps(env, e, h, was, r, d, key);
  }

  lemma StandsStill(env: Env, e: EngineState, h: History)
    requires EngineInv(env, e, h)
    ensures Stepped(env, e, h, e)
  {
    SafeSelf(e.store, h);
  }

  lemma ApplicationIsSensible(env: Env, e: EngineState, h: History, report: ApplicationReport)
    requires EngineInv(env, e, h)
    ensures Sensible(env, e, h, PlanApplication(e, report))
  {
    var plan := PlanApplication(e, report);
    if plan.Put? && !e.store.failed {
      FoundIs(e.store.d, h, report.subject, report.attemptSeq);
      var r := Lookup(e.store.d.attempts, report.subject, report.attemptSeq).value;
      assert Settled(env, e.store.d, r);
      hide Inv, Legal, Boundary, AddReason;
      UpdateIsLegal(e.store.d, h, plan.kind, r, plan.attempt, e.store.limits);
    }
  }

  lemma VerificationIsSensible(env: Env, e: EngineState, h: History, report: VerificationReport)
    requires EngineInv(env, e, h)
    ensures Sensible(env, e, h, PlanVerification(e, report))
  {
    var plan := PlanVerification(e, report);
    if (plan.Put? || plan.CompleteEffect?) && !e.store.failed {
      FoundIs(e.store.d, h, report.subject, report.attemptSeq);
      var r := Lookup(e.store.d.attempts, report.subject, report.attemptSeq).value;
      assert Settled(env, e.store.d, r);
      hide Inv, Legal, Boundary, AddReason;
      UpdateIsLegal(e.store.d, h, Update, r, if plan.Put? then plan.attempt else plan.verified, e.store.limits);
    }
  }

  lemma RollbackIsSensible(env: Env, e: EngineState, h: History, q: RollbackRequest)
    requires EngineInv(env, e, h)
    ensures Sensible(env, e, h, PlanRollback(env, e, q))
  {
    hide ReplayDecision, CurrentAuthority, Mismatches;
    var plan := PlanRollback(env, e, q);
    if plan.Revert? && !e.store.failed {
      FoundIs(e.store.d, h, q.subject, q.attemptSeq);
      var r := plan.was;
      hide Inv, Legal, Boundary, AddReason;
      UpdateIsLegal(e.store.d, h, PutKind.Rollback, r, plan.attempt, e.store.limits);
    }
  }

  /** Re-binding an interrupted attempt is sound because it already occupies its pair. */
  lemma ResolutionIsSensible(env: Env, e: EngineState, h: History, q: RevalidationRequest)
    requires EngineInv(env, e, h)
    ensures Sensible(env, e, h, PlanResolution(env, e, q))
  {
    hide RevalidationDecision;
    var plan := PlanResolution(env, e, q);
    if plan.Put? && !e.store.failed {
      FoundIs(e.store.d, h, q.subject, q.attemptSeq);
      var r := Lookup(e.store.d.attempts, q.subject, q.attemptSeq).value;
      hide Inv, Legal, Boundary, AddReason;
      UpdateIsLegal(e.store.d, h, plan.kind, r, plan.attempt, e.store.limits);
    }
  }

  lemma ApplicationSteps(env: Env, e: EngineState, h: History, r: ApplicationReport)
    requires EngineInv(env, e, h)
    ensures Stepped(env, e, h, RecordApplication(env, e, r).0)
  {
    hide EngineInv, Sensible, Stepped, Execute, PlanApplication;
    var t := e.(tick := e.tick + 1);
    TickKeeps(env, e, h);
    ApplicationIsSensible(env, t, h, r);
    PlanSteps(env, e, t, h, PlanApplication(t, r));
  }

  lemma VerificationSteps(env: Env, e: EngineState, h: History, r: VerificationReport)
    requires EngineInv(env, e, h)
    ensures Stepped(env, e, h, RecordVerification(env, e, r).0)
  {
    hide EngineInv, Sensible, Stepped, Execute, PlanVerification;
    var t := e.(tick := e.tick + 1);
    TickKeeps(env, e, h);
    VerificationIsSensible(env, t, h, r);
    PlanSteps(env, e, t, h, PlanVerification(t, r));
  }

  lemma RollbackSteps(env: Env, e: EngineState, h: History, q: RollbackRequest)
    requires EngineInv(env, e, h)
    ensures Stepped(env, e, h, RequestRollback(env, e, q).0)
  {
    hide EngineInv, Sensible, Stepped, Execute, PlanRollback;
    var t := e.(tick := e.tick + 1);
    TickKeeps(env, e, h);
    RollbackIsSensible(env, t, h, q);
    PlanSteps(env, e, t, h, PlanRollback(env, t, q));
  }

  lemma ResolutionSteps(env: Env, e: EngineState, h: History, q: RevalidationRequest)
    requires EngineInv(env, e, h)
    ensures Stepped(env, e, h, ResolveInterrupted(env, e, q).0)
  {
    hide EngineInv, Sensible, Stepped, Execute, PlanResolution;
    var t := e.(tick := e.tick + 1);
    TickKeeps(env, e, h);
    ResolutionIsSensible(env, t, h, q);
    PlanSteps(env, e, t, h, PlanResolution(env, t, q));
  }

  lemma PlanSteps(env: Env, e: EngineState, t: EngineState, h: History, plan: Plan)
    requires EngineInv(env, t, h) && Sensible(env, t, h, plan) && e.store == t.store
    ensures Stepped(env, e, h, Execute(env, t, plan).0)
  {
    hide EngineInv, Sensible, Execute;
    ExecuteSteps(env, t, h, plan);
    SteppedReads(env, t, h, e, Execute(env, t, plan).0);
  }
}
