/** What each call does to the attempt table when it goes through, and that otherwise it writes nothing. */
module Outcomes {
  import opened Basics
  import opened ByteBits
  import opened Reasons
  import opened Records
  import opened Lineage
  import opened Table
  import opened Invariant
  import opened Refinement
  import opened StoreSafety
  import opened Protocol
  import opened EngineSafety
  import opened EngineCalls
  import opened Grants
  import opened Restart
  import opened Retention
  import opened Answers
  import opened Gate
  import opened Definitions
  import Verdicts
  import Selector

  /** The table `b` is `a` with `r` under its key and every other attempt untouched. */
  ghost predicate Becomes(a: seq<AttemptRecord>, b: seq<AttemptRecord>, r: AttemptRecord) {
    && UniqueKeys(b)
    && Lookup(b, r.subject, r.seqno).Some? && Bare(Lookup(b, r.subject, r.seqno).value) == Bare(r)
    && (forall x :: !SameKey(x, r) ==> (x in b <==> x in a))
  }

  lemma PutBecomes(e: EngineState, h: History, kind: PutKind, r: AttemptRecord)
    requires StoreInv(e.store, h) && (!e.store.failed ==> Legal(e.store.d, h, AttemptPut(kind, r), e.store.limits))
    ensures var f := Write(e, AttemptPut(kind, r));
            && (!f.store.failed ==> Becomes(e.store.d.attempts, f.store.d.attempts, r))
            && (f.store.failed ==> f.store.d == e.store.d)
  {
    hide Legal, Inv, Upsert, Bare, Lookup, After, Describes;
    var f := Write(e, AttemptPut(kind, r));
    if !f.store.failed {
      PutView(e.store.d, h, kind, r, e.store.limits);
      PutFound(e.store.d, h, kind, r, e.store.limits);
      StoredBare(kind, r, e.store.d.lastSeq + 1);
      WriteSucceeds(e, AttemptPut(kind, r));
      KeyOf(kind, r, e.store.d.lastSeq + 1);
    }
  }

  lemma KeyOf(kind: PutKind, r: AttemptRecord, seqno: nat)
    ensures SameKey(Stored(kind, r, seqno), r)
  {}


  /** A put that is then decided: decided exactly when it was written, and then the table has become that. */
  lemma PutThenSettleOutcome(env: Env, e: EngineState, h: History, kind: PutKind, r: AttemptRecord, d: Decision, checkpoints: bool)
    requires EngineInv(env, e, h)
    requires !e.store.failed ==> Legal(e.store.d, h, AttemptPut(kind, r), e.store.limits) && Settled(env, e.store.d, r)
    ensures var (f, reply) := PutThenSettle(env, e, kind, r, d, checkpoints);
            && (reply.Decided? ==> Becomes(e.store.d.attempts, f.store.d.attempts, r) && reply.decision.kind == d.kind && reply.decision.outcome == d.outcome)
            && (!reply.Decided? ==> f.store.d == e.store.d)
  {
    hide EngineInv, StoreInv, Legal, Settled, Becomes, Write, CommitDecision, MaybeCheckpoint, Remember, Grow;
    EngineInvMeans(env, e, h);
    PutBecomes(e, h, kind, r);
    PutSteps(env, e, h, kind, r);
    var put := Write(e, AttemptPut(kind, r));
    if !put.store.failed {
      EngineInvMeans(env, put, h);
      var (decided, written) := CommitDecision(env, put, d);
      DecisionCalm(env, put, h, d);
      DecisionKept(env, put, d);
      CalmInv(put, h, decided);
      CheckpointCalm(decided, h);
      RememberTable(if checkpoints then MaybeCheckpoint(decided) else decided, written);
    }
  }

  lemma DecisionKept(env: Env, e: EngineState, d: Decision)
    ensures CommitDecision(env, e, d).1.kind == d.kind && CommitDecision(env, e, d).1.outcome == d.outcome
  {
    hide Write;
  }

  lemma RememberTable(e: EngineState, d: Decision)
    ensures Remember(e, d).store == e.store
  {}

  /** A plan that puts nothing leaves the store as it was. */
  lemma HarmlessPlan(env: Env, e: EngineState, plan: Plan)
    ensures plan.Reject? || plan.Repeat? || plan.Report? ==> Execute(env, e, plan).0.store == e.store
  {}

  // ---- application reports ----

  /** The report is about an authorized attempt, by its own identity. */
  predicate TakesApplication(e: EngineState, report: ApplicationReport) {
    var found := Lookup(e.store.d.attempts, report.subject, report.attemptSeq);
    && !e.closed && !e.storeFailed && found.Some?
    && found.value.generation == report.generation && found.value.attemptId == report.attemptId
    && report.applier != ZERO_INCARNATION && found.value.phase.Authorized?
  }

  /** The attempt as an application report leaves it: refused, or accepted with the effect still to be verified, or done. */
  predicate ApplicationLeaves(was: AttemptRecord, now: AttemptRecord, report: ApplicationReport, p: Policy) {
    && now == was.(phase := now.phase, reasons := now.reasons, applierIncarnation := now.applierIncarnation)
    && now.phase == (if !report.accepted then Aborted else if p.requireVerifiedEffect then Acknowledged else Phase.Committed)
    && now.applierIncarnation == (if report.accepted then report.applier else was.applierIncarnation)
    && if report.accepted then Appended(was.reasons, now.reasons, ACKNOWLEDGEMENT_NOT_EFFECT, [])
       else Appended(was.reasons, now.reasons, BACKEND_REJECTED, report.detail)
  }

  /**
   * An application report moves an authorized attempt, and only it: refused to Aborted, accepted to
   * Acknowledged or, when no verification is required, straight to Committed. Anything else writes
   * nothing. Every answer is stated case by case.
   */
  lemma ApplicationOutcome(env: Env, e: EngineState, h: History, report: ApplicationReport)
    requires EngineInv(env, e, h)
    ensures var (f, reply) := RecordApplication(env, e, report);
            var found := Lookup(e.store.d.attempts, report.subject, report.attemptSeq);
            && (!TakesApplication(e, report) ==> f.store == e.store)
            && (TakesApplication(e, report) && reply.Decided? ==>
                  exists r :: Becomes(e.store.d.attempts, f.store.d.attempts, r) && ApplicationLeaves(found.value, r, report, e.store.d.policy))
            && (TakesApplication(e, report) && !reply.Decided? ==> f.store.d == e.store.d)
            && ApplicationAnswered(e, report, f, reply)
  {
    hide EngineInv, PutThenSettle, Becomes, PlanApplication, Lookup, ApplicationLeaves, ApplicationAnswered, Settled, Legal;
    ApplicationAnswers(env, e, report);
    var t := e.(tick := e.tick + 1);
    TickKeeps(env, e, h);
    ApplicationIsSensible(env, t, h, report);
    ApplicationPlan(t, report);
    var plan := PlanApplication(t, report);
    HarmlessPlan(env, t, plan);
    if plan.Put? { PutThenSettleOutcome(env, t, h, plan.kind, plan.attempt, plan.decision, plan.checkpoints); }
  }

  lemma ApplicationPlan(e: EngineState, report: ApplicationReport)
    ensures var plan := PlanApplication(e, report);
            var found := Lookup(e.store.d.attempts, report.subject, report.attemptSeq);
            && (plan.Put? || plan.Reject? || plan.Report?)
            && (!e.closed && !e.storeFailed ==> (plan.Put? <==> TakesApplication(e, report)))
            && (plan.Put? ==> found.Some? && ApplicationLeaves(found.value, plan.attempt, report, e.store.d.policy))
  {
    hide Conclude, DecisionAbout, Lookup;
  }

  lemma FoundKey(e: EngineState, subject: LinkKey, seqno: nat)
    ensures var found := Lookup(e.store.d.attempts, subject, seqno);
            found.Some? ==> found.value.subject == subject && found.value.seqno == seqno
  {}

  // ---- revalidation ----

  predicate TakesVerdict(e: EngineState, q: RevalidationRequest) {
    var found := Lookup(e.store.d.attempts, q.subject, q.attemptSeq);
    && !e.closed && q.observer != ZERO_INCARNATION && q.observerEpoch == e.epoch
    && found.Some? && found.value.phase.Interrupted? && !found.value.revalidated
  }

  /** The attempt as a revalidation leaves it. */
  predicate RevalidationLeaves(env: Env, e: EngineState, was: AttemptRecord, now: AttemptRecord, verdict: Revalidation) {
    && now == was.(phase := now.phase, reasons := now.reasons, authority := now.authority, coordinator := now.coordinator,
                   revalidated := true, revalidation := verdict)
    && match verdict
       case NotApplied =>
         now.phase.Aborted? && now.authority == was.authority && now.coordinator == was.coordinator && Appended(was.reasons, now.reasons, FENCED, [])
       case Applied =>
         now.phase.Committed? && BoundAnew(env, e, was.authority, now.authority) && now.coordinator == e.incarnation
         && Appended(was.reasons, now.reasons, EFFECT_VERIFIED, [])
       case Unknown =>
         now.phase == was.phase && now.authority == was.authority && now.coordinator == was.coordinator
         && Appended(was.reasons, now.reasons, BACKEND_UNKNOWN, [])
  }

  /**
   * A revalidation resolves an interrupted attempt once, and only it: not applied aborts it, applied
   * commits it under the current boot and definitions, unknown leaves it interrupted for good. Every
   * answer is stated case by case.
   */
  lemma ResolutionOutcome(env: Env, e: EngineState, h: History, q: RevalidationRequest)
    requires EngineInv(env, e, h)
    ensures var (f, reply) := ResolveInterrupted(env, e, q);
            var found := Lookup(e.store.d.attempts, q.subject, q.attemptSeq);
            && (!TakesVerdict(e, q) ==> f.store == e.store)
            && (TakesVerdict(e, q) && reply.Decided? ==>
                  exists r :: Becomes(e.store.d.attempts, f.store.d.attempts, r) && RevalidationLeaves(env, e, found.value, r, q.verdict))
            && (TakesVerdict(e, q) && !reply.Decided? ==> f.store.d == e.store.d)
            && ResolutionAnswered(env, e, q, f, reply)
  {
    hide EngineInv, PutThenSettle, Becomes, PlanResolution, Lookup, RevalidationLeaves, ResolutionAnswered, Settled, Legal;
    ResolutionAnswers(env, e, q);
    var t := e.(tick := e.tick + 1);
    RevalidationTicks(env, e, t);
    TickKeeps(env, e, h);
    ResolutionIsSensible(env, t, h, q);
    ResolutionPlan(env, t, q);
    var plan := PlanResolution(env, t, q);
    HarmlessPlan(env, t, plan);
    if plan.Put? { PutThenSettleOutcome(env, t, h, plan.kind, plan.attempt, plan.decision, plan.checkpoints); }
  }

  lemma ResolutionPlan(env: Env, e: EngineState, q: RevalidationRequest)
    ensures var plan := PlanResolution(env, e, q);
            var found := Lookup(e.store.d.attempts, q.subject, q.attemptSeq);
            && (plan.Put? || plan.Reject? || plan.Report?)
            && (!e.closed && q.observer != ZERO_INCARNATION && q.observerEpoch == e.epoch ==> (plan.Put? <==> TakesVerdict(e, q)))
            && (plan.Put? ==> found.Some? && RevalidationLeaves(env, e, found.value, plan.attempt, q.verdict))
  {
    hide Conclude, DecisionAbout, Lookup, RevalidationDecision;
  }

  /** The clock is no part of it. */
  lemma RevalidationTicks(env: Env, e: EngineState, t: EngineState)
    requires t == e.(tick := e.tick + 1)
    ensures forall was, now, verdict :: RevalidationLeaves(env, t, was, now, verdict) == RevalidationLeaves(env, e, was, now, verdict)
  {
    hide Appended;
  }

  // ---- verification ----

  predicate TakesVerification(e: EngineState, report: VerificationReport) {
    var found := Lookup(e.store.d.attempts, report.subject, report.attemptSeq);
    && !e.closed && !e.storeFailed && found.Some? && found.value.attemptId == report.attemptId && found.value.phase.Acknowledged?
  }

  lemma EffectOutcome(env: Env, e: EngineState, h: History, v: AttemptRecord, d: Decision)
    requires EngineInv(env, e, h) && Sensible(env, e, h, CompleteEffect(v, d))
    ensures var (f, reply) := PutEffectThenCommit(env, e, v, d);
            reply.Decided? ==> Becomes(e.store.d.attempts, f.store.d.attempts, v.(phase := Phase.Committed)) && reply.decision.outcome == d.outcome
  {
    hide EngineInv, StoreInv, Legal, Settled, Becomes, Write, PutThenSettle, Grow;
    var put := Write(e, AttemptPut(Update, v));
    EngineInvMeans(env, e, h);
    PutBecomes(e, h, Update, v);
    PutSteps(env, e, h, Update, v);
    if !put.store.failed {
      EngineInvMeans(env, put, h);
      var done := v.(phase := Phase.Committed);
      FoundAfter(e, h, v);
      CompletionIsLegal(env, put, h, Stored(Update, v, e.store.d.lastSeq + 1), done);
      PutThenSettleOutcome(env, put, h, Completion, done, d, true);
      var f := PutThenSettle(env, put, Completion, done, d, true).0;
      if PutThenSettle(env, put, Completion, done, d, true).1.Decided? {
        BecomesTwice(e.store.d.attempts, put.store.d.attempts, f.store.d.attempts, v, done);
      }
    }
  }

  lemma FoundAfter(e: EngineState, h: History, v: AttemptRecord)
    requires StoreInv(e.store, h) && !Write(e, AttemptPut(Update, v)).store.failed
    requires Legal(e.store.d, h, AttemptPut(Update, v), e.store.limits)
    ensures Lookup(Write(e, AttemptPut(Update, v)).store.d.attempts, v.subject, v.seqno) == Some(Stored(Update, v, e.store.d.lastSeq + 1))
  {
    hide Legal, Inv, After;
    WriteSucceeds(e, AttemptPut(Update, v));
    PutFound(e.store.d, h, Update, v, e.store.limits);
  }

  lemma BecomesTwice(a: seq<AttemptRecord>, b: seq<AttemptRecord>, c: seq<AttemptRecord>, r: AttemptRecord, t: AttemptRecord)
    requires Becomes(a, b, r) && Becomes(b, c, t) && SameKey(r, t)
    ensures Becomes(a, c, t)
  {
    hide Bare, Lookup;
  }

  /** The attempt as a verification report leaves it: done if its effect was seen, else undetermined. */
  predicate VerificationLeaves(was: AttemptRecord, now: AttemptRecord, report: VerificationReport) {
    && now == was.(phase := now.phase, reasons := now.reasons)
    && if report.effectObserved then now.phase.Committed? && Appended(was.reasons, now.reasons, EFFECT_VERIFIED, report.detail)
       else now.phase.Indeterminate? && Appended(was.reasons, now.reasons, EFFECT_UNVERIFIED, report.detail)
  }

  /**
   * A verification commits an acknowledged attempt whose effect was seen, ends it undetermined when
   * not, and touches nothing else. Every answer is stated case by case: only a seen effect answers Ok.
   */
  lemma VerificationOutcome(env: Env, e: EngineState, h: History, report: VerificationReport)
    requires EngineInv(env, e, h)
    ensures var (f, reply) := RecordVerification(env, e, report);
            var found := Lookup(e.store.d.attempts, report.subject, report.attemptSeq);
            && (!TakesVerification(e, report) ==> f.store == e.store)
            && (TakesVerification(e, report) && reply.Decided? ==>
                  exists r :: Becomes(e.store.d.attempts, f.store.d.attempts, r) && VerificationLeaves(found.value, r, report))
            && VerificationAnswered(e, report, f, reply)
  {
    hide EngineInv, PutThenSettle, PutEffectThenCommit, Becomes, PlanVerification, Lookup, VerificationLeaves, VerificationAnswered, Settled, Legal;
    VerificationAnswers(env, e, report);
    var t := e.(tick := e.tick + 1);
    TickKeeps(env, e, h);
    VerificationIsSensible(env, t, h, report);
    VerificationPlan(t, report);
    var plan := PlanVerification(t, report);
    HarmlessPlan(env, t, plan);
    if plan.Put? { PutThenSettleOutcome(env, t, h, plan.kind, plan.attempt, plan.decision, plan.checkpoints); }
    if plan.CompleteEffect? { EffectOutcome(env, t, h, plan.verified, plan.decision); }
  }

  lemma VerificationPlan(e: EngineState, report: VerificationReport)
    ensures var plan := PlanVerification(e, report);
            var found := Lookup(e.store.d.attempts, report.subject, report.attemptSeq);
            && (plan.Put? || plan.CompleteEffect? || plan.Reject? || plan.Report?)
            && (!e.closed && !e.storeFailed ==>
                  && (plan.Put? <==> TakesVerification(e, report) && !report.effectObserved)
                  && (plan.CompleteEffect? <==> TakesVerification(e, report) && report.effectObserved))
            && (plan.Put? ==> found.Some? && VerificationLeaves(found.value, plan.attempt, report))
            && (plan.CompleteEffect? ==> found.Some? && VerificationLeaves(found.value, plan.verified.(phase := Phase.Committed), report))
  {
    hide Conclude, DecisionAbout, Lookup;
  }

  // ---- rollback ----

  predicate TakesRollback(env: Env, e: EngineState, q: RollbackRequest) {
    var found := Lookup(e.store.d.attempts, q.subject, q.attemptSeq);
    && !e.closed && FindEntry(e.store.d.idempotency, q.key).None? && found.Some?
    && found.value.phase in {Authorized, Acknowledged, Phase.Verified, Phase.Committed}
    && Agrees(env, e, found.value.generation, q.expected)
  }

  /** The attempt as a rollback leaves it. */
  predicate RollbackLeaves(was: AttemptRecord, now: AttemptRecord, rationale: seq<byte>) {
    && now == was.(phase := now.phase, reasons := now.reasons)
    && now.phase.RolledBack? && Appended(was.reasons, now.reasons, ROLLBACK_REQUESTED, rationale)
  }

  lemma RevertOutcome(env: Env, e: EngineState, h: History, was: AttemptRecord, r: AttemptRecord, d: Decision, key: Digest)
    requires EngineInv(env, e, h) && Sensible(env, e, h, Revert(was, r, d, key))
    ensures var (f, reply) := RevertAuthority(env, e, was, r, d, key);
            reply.Decided? ==>
              && Becomes(e.store.d.attempts, f.store.d.attempts, r)
              && NewestOf(e.store.d.fences + [FenceRecord(RollbackRevoked, was.subject, was.generation, was.seqno, e.epoch, e.incarnation,
                                                          e.store.d.lastSeq + 2, [])],
                          f.store.d.fences, e.store.limits.maxFences)
  {
    hide EngineInv, StoreInv, Legal, Settled, Becomes, Grow, CommitDecision, CommitIdempotency, Remember, RetainFences, Effect, WithEntry, NewestOf;
    EngineInvMeans(env, e, h);
    PutBecomes(e, h, PutKind.Rollback, r);
    PutSteps(env, e, h, PutKind.Rollback, r);
    var put := Write(e, AttemptPut(PutKind.Rollback, r));
    EngineInvMeans(env, put, h);
    var fence := Protocol.Fence(e, RollbackRevoked, was);
    var fenced := Write(put, fence);
    FenceCalm(put, h, fence.fence);
    CalmInv(put, h, fenced);
    if !put.store.failed && !fenced.store.failed {
      PutFences(e, PutKind.Rollback, r);
      FenceAdds(put, fence);
      var (decided, written) := CommitDecision(env, fenced, d);
      DecisionCalm(env, fenced, h, d);
      DecisionFences(env, fenced, d);
      CalmInv(fenced, h, decided);
      IdempotencyCalm(env, decided, h, written, key);
      IdempotencyFences(env, decided, written, key);
      NewestFencesStay(e.store.d.fences + [fence.fence.(seqno := e.store.d.lastSeq + 2)], e.store.limits.maxFences);
      RememberTable(CommitIdempotency(env, decided, written, key), written);
    }
  }

  lemma PutFences(e: EngineState, kind: PutKind, r: AttemptRecord)
    ensures var f := Write(e, AttemptPut(kind, r));
            f.store.d.fences == e.store.d.fences && f.store.limits == e.store.limits
            && (!f.store.failed ==> f.store.d.lastSeq == e.store.d.lastSeq + 1)
  {}

  lemma FenceAdds(e: EngineState, rec: Record)
    requires rec.FencePut? && !Write(e, rec).store.failed
    ensures Write(e, rec).store.d.fences == RetainFences(e.store.d.fences + [rec.fence.(seqno := e.store.d.lastSeq + 1)], e.store.limits.maxFences)
  {
    hide RetainFences;
  }

  lemma DecisionFences(env: Env, e: EngineState, d: Decision)
    ensures CommitDecision(env, e, d).0.store.d.fences == e.store.d.fences
  {}

  lemma IdempotencyFences(env: Env, e: EngineState, d: Decision, key: Digest)
    ensures CommitIdempotency(env, e, d, key).store.d.fences == e.store.d.fences
  {}

  /**
   * A rollback whose expectations are met revokes an authority holder, and only it, and fences it
   * under the current process; otherwise it writes nothing. Every answer is stated case by case.
   */
  lemma RollbackOutcome(env: Env, e: EngineState, h: History, q: RollbackRequest)
    requires EngineInv(env, e, h)
    ensures var (f, reply) := RequestRollback(env, e, q);
            var found := Lookup(e.store.d.attempts, q.subject, q.attemptSeq);
            && (!TakesRollback(env, e, q) ==> f.store == e.store)
            && (TakesRollback(env, e, q) && reply.Decided? ==>
                  && (exists r :: Becomes(e.store.d.attempts, f.store.d.attempts, r) && RollbackLeaves(found.value, r, q.rationale))
                  && NewestOf(e.store.d.fences + [FenceRecord(RollbackRevoked, q.subject, found.value.generation, q.attemptSeq, e.epoch, e.incarnation,
                                                              e.store.d.lastSeq + 2, [])],
                              f.store.d.fences, e.store.limits.maxFences))
            && RollbackAnswered(env, e, q, f, reply)
  {
    hide EngineInv, RevertAuthority, Becomes, PlanRollback, Lookup, TakesRollback, NewestOf, RollbackAnswered, RollbackLeaves, Sensible;
    RollbackAnswers(env, e, q);
    var t := e.(tick := e.tick + 1);
    TickKeeps(env, e, h);
    RollbackIsSensible(env, t, h, q);
    RollbackPlan(env, t, q);
    ExpectsTicked(env, e, q);
    var plan := PlanRollback(env, t, q);
    HarmlessPlan(env, t, plan);
    if plan.Revert? {
      RevertOutcome(env, t, h, plan.was, plan.attempt, plan.decision, plan.key);
    }
  }

  lemma RollbackPlan(env: Env, e: EngineState, q: RollbackRequest)
    ensures var plan := PlanRollback(env, e, q);
            var found := Lookup(e.store.d.attempts, q.subject, q.attemptSeq);
            && (plan.Revert? || plan.Reject? || plan.Report? || plan.Repeat?)
            && (!e.closed ==> (plan.Revert? <==> TakesRollback(env, e, q)))
            && (plan.Revert? ==> found == Some(plan.was) && plan.was.subject == q.subject && plan.was.seqno == q.attemptSeq
                                 && RollbackLeaves(plan.was, plan.attempt, q.rationale))
  {
    hide Conclude, DecisionAbout, Lookup, FindEntry, ReplayDecision, CurrentAuthority, Mismatches, Agrees;
    FoundKey(e, q.subject, q.attemptSeq);
    var found := Lookup(e.store.d.attempts, q.subject, q.attemptSeq);
    if found.Some? { ComplaintsAre(env, e, q.subject, found.value.generation, q.expected); }
  }

  /** The clock is no part of what a caller expects. */
  lemma ExpectsTicked(env: Env, e: EngineState, q: RollbackRequest)
    ensures TakesRollback(env, e.(tick := e.tick + 1), q) == TakesRollback(env, e, q)
  {
    hide Lookup, FindEntry;
  }

  // ---- grants ----

  /**
   * A grant adds one attempt to the table and touches nothing else: authorized, under the next
   * sequence of its pair, for the chosen alternate, all as decided; the predecessor it may name is an
   * attempt of the pair that was committed under an earlier boot.
   */
  lemma GrantOutcome(env: Env, e: EngineState, h: History, q: FailoverRequest)
    requires EngineInv(env, e, h) && HasRoom(env, e, q) && GrantsAnew(RequestFailover(env, e, q).1)
    ensures var (f, reply) := RequestFailover(env, e, q);
            exists r :: Becomes(e.store.d.attempts, f.store.d.attempts, r)
                        && r.seqno == CountOf(e.store.d.attempts, q.subject, q.generation) + 1 && r.phase.Authorized?
                        && Carries(r, e, q, reply.decision)
                        && r.authority == reply.decision.authority && r.replacement == reply.decision.replacement
                        && r.replacementGeneration == reply.decision.replacementGeneration
                        && Succeeds(e.store.d.attempts, q, r.predecessor)
                        && (r.predecessor.Some? ==> Precedes(e.store.d, q, r.predecessor.value))
  {
    hide EngineInv, Becomes, Precedes, Succeeds, RequestFault, FindEntry, FailoverGate, Verdicts.EvaluateFailure, Selector.Select, SelectionInput, CountOf, NextFits,
      GrantConditions, GrantContents, GrantAuthority, GrantDecision, DecideBound, GrantedAttempt;
    var t := e.(tick := e.tick + 1);
    TickKeeps(env, e, h);
    GrantMeans(env, e, q);
    GrantIsAuthority(env, e, q);
    var link := Find(t.store.d.topology.links, q.subject).value;
    var v := Verdicts.EvaluateFailure(t.book, Viewpoint(t), q.subject, q.generation);
    var o := Selector.Select(SelectionInput(t, q, link));
    var d := GrantDecision(env, t, q, o, o.assessments[o.selectedIndex.value], v);
    GrantIsGrantable(env, t, h, q, o, v);
    ConditionsMean(env, t, q);
    GateTicks(env, e, q);
    GrantedWhileUp(env, t, q, d);
    AuthorityOutcome(env, t, h, q, d);
    GrantReply(env, t, q, d);
    AttemptIs(env, t, h, q, o, o.assessments[o.selectedIndex.value], v);
  }

  /** A new attempt of the request's pair as its decision describes it, made now by this process. */
  predicate Carries(r: AttemptRecord, e: EngineState, q: FailoverRequest, d: Decision) {
    && r.subject == q.subject && r.generation == q.generation && r.seqno == d.attemptSeq && r.attemptId == d.attemptId && r.key == q.key
    && r.evidenceDigest == d.evidenceDigest && r.createdTick == e.tick + 1 && r.createdEpoch == e.epoch && r.coordinator == e.incarnation
    && r.applierIncarnation == ZERO_INCARNATION && !r.revalidated && r.revalidation == Revalidation.Unknown && r.reasons <= d.reasons
  }

  /** The predecessor named is the pair's newest attempt, if that one holds authority, and else there is none. */
  ghost predicate Succeeds(a: seq<AttemptRecord>, q: FailoverRequest, predecessor: Option<Digest>) {
    && (predecessor.Some? ==> exists i :: NewestAt(a, q, i) && Holder(a[i]) && a[i].attemptId == predecessor.value)
    && (predecessor.None? ==> forall i :: NewestAt(a, q, i) ==> !Holder(a[i]))
  }

  lemma PredecessorIs(t: EngineState, q: FailoverRequest, d: Decision)
    ensures Succeeds(t.store.d.attempts, q, GrantedAttempt(t, q, d).predecessor)
  {
    hide NewestAt, OfRequest, Latest;
    var a := t.store.d.attempts;
    LatestIsNewest(a, q);
    forall i, k | NewestAt(a, q, i) && NewestAt(a, q, k) ensures i == k { OneNewest(a, q, i, k); }
    forall i | NewestAt(a, q, i) ensures Latest(a, q.subject, q.generation).Some? { NewestIsOf(a, q, i); }
  }

  /** The digest is that of an attempt of the pair which some earlier boot committed. */
  ghost predicate Precedes(d: Lineage.DurableState, q: FailoverRequest, id: Digest) {
    exists x :: x in d.attempts && OfPair(x, q.subject, q.generation) && x.phase.Committed? && !Active(d, x) && x.attemptId == id
  }

  lemma GrantedWhileUp(env: Env, e: EngineState, q: FailoverRequest, d: Decision)
    requires GrantAuthority(env, e, q, d).1.Decided?
    ensures !e.store.failed
  {
    hide SettleDurable, GrantedAttempt;
  }

  lemma ConditionsMean(env: Env, t: EngineState, q: FailoverRequest)
    requires GrantConditions(env, t, q)
    ensures FailoverGate(env, t, q).Open? && Defines(t.store.d.topology, q.subject, q.generation)
    ensures FindEntry(t.store.d.idempotency, q.key).None?
    ensures CountOf(t.store.d.attempts, q.subject, q.generation) < t.store.d.policy.maxAttempts
  {
    hide FailoverGate, Passes, WellFormed, TurnsAway;
    GateOpensExactlyWhen(env, t, q);
  }

  lemma GrantIsAuthority(env: Env, e: EngineState, q: FailoverRequest)
    requires GrantsAnew(RequestFailover(env, e, q).1)
    ensures var t := e.(tick := e.tick + 1);
            var link := Find(t.store.d.topology.links, q.subject);
            var v := Verdicts.EvaluateFailure(t.book, Viewpoint(t), q.subject, q.generation);
            && link.Some? && v.Established?
            && var o := Selector.Select(SelectionInput(t, q, link.value));
               && o.selectedIndex.Some? && o.selectedIndex.value < |o.assessments|
               && RequestFailover(env, e, q) == GrantAuthority(env, t, q, GrantDecision(env, t, q, o, o.assessments[o.selectedIndex.value], v))
  {
    hide DecideBound, RequestFault, FindEntry, FailoverGate, CountOf, Selector.Select, SelectionInput, Verdicts.EvaluateFailure, Grantable,
      GrantDecision, GrantAuthority;
    var t := e.(tick := e.tick + 1);
    var link := Find(t.store.d.topology.links, q.subject);
    ReplayIsNoGrant(t, q);
    BoundGrants(env, t, q, link.value);
    var v := Verdicts.EvaluateFailure(t.book, Viewpoint(t), q.subject, q.generation);
    SelectionIsGrant(env, t, q, SelectionInput(t, q, link.value), v);
  }

  lemma SelectionIsGrant(env: Env, t: EngineState, q: FailoverRequest, input: Selector.Input, v: Verdicts.FailureVerdict)
    requires v.Established? && GrantsAnew(Grantable(env, t, q, input, v).1)
    ensures var o := Selector.Select(input);
            && o.selectedIndex.Some? && o.selectedIndex.value < |o.assessments|
            && Grantable(env, t, q, input, v) == GrantAuthority(env, t, q, GrantDecision(env, t, q, o, o.assessments[o.selectedIndex.value], v))
  {
    hide Decline, SettleUndurable, GrantAuthority, Selector.Select, Selector.NamesInput, CountOf, GrantDecision, Selector.Maximal;
    var o := Selector.Select(input);
    SelectionGrants(env, t, q, input, v);
    DeclineGrantsNothing(env, t, q, UnselectedDecision(env, t, q, o, v.digest), v.digest);
    UndurableKind(env, t, Conclude(RequestDecision(env, t, q).(candidates := o.assessments, evidenceDigest := v.digest, kind := Refuse),
                                   Eligibility, Outcome.Refused, [Reasons.ATTEMPTS_EXHAUSTED]));
  }

  lemma AttemptIs(env: Env, t: EngineState, h: History, q: FailoverRequest, o: Selector.Selection, chosen: Assessment, v: Verdicts.FailureVerdict)
    requires EngineInv(env, t, h) && !t.store.failed && v.Established? && FailoverGate(env, t, q).Open?
    ensures var d := GrantDecision(env, t, q, o, chosen, v);
            var r := GrantedAttempt(t, q, d);
            && r.subject == q.subject && r.generation == q.generation && r.key == q.key && r.authority == d.authority && r.replacement == d.replacement
            && r.seqno == d.attemptSeq == CountOf(t.store.d.attempts, q.subject, q.generation) + 1 && r.attemptId == d.attemptId
            && r.replacementGeneration == d.replacementGeneration && r.evidenceDigest == d.evidenceDigest && r.reasons == d.reasons
            && r.createdTick == t.tick && r.createdEpoch == t.epoch && r.coordinator == t.incarnation
            && r.applierIncarnation == ZERO_INCARNATION && !r.revalidated && r.revalidation == Revalidation.Unknown
            && Succeeds(t.store.d.attempts, q, r.predecessor)
            && (r.predecessor.Some? ==> Precedes(t.store.d, q, r.predecessor.value))
  {
    hide CountOf, Listed, CurrentAuthority, FailoverGate, EngineInv, Succeeds;
    PredecessorIs(t, q, GrantDecision(env, t, q, o, chosen, v));
    OpenGateIsFree(env, t, h, q);
    var latest := Latest(t.store.d.attempts, q.subject, q.generation);
    if latest.Some? {
      assert OfPair(latest.value, q.subject, q.generation);
      FreeLatest(env, t, h, q, latest.value);
    }
  }

  /** An open gate's latest attempt holds no authority of this boot; of another boot it may, and is then named as predecessor. */
  lemma FreeLatest(env: Env, t: EngineState, h: History, q: FailoverRequest, r: AttemptRecord)
    requires EngineInv(env, t, h) && r in t.store.d.attempts && !Occupies(t.store.d, r)
    ensures !InFlightOrCut(r.phase)
  {}

  /** Both writes of a grant that is decided went through. */
  lemma AuthorityOutcome(env: Env, e: EngineState, h: History, q: FailoverRequest, d: Decision)
    requires EngineInv(env, e, h) && FailoverGate(env, e, q).Open? && Defines(e.store.d.topology, q.subject, q.generation) && NextFits(e, q)
    requires ReadyToGrant(env, e, q, GrantedAttempt(e, q, d))
    ensures GrantAuthority(env, e, q, d).1.Decided? ==>
              Becomes(e.store.d.attempts, GrantAuthority(env, e, q, d).0.store.d.attempts, GrantedAttempt(e, q, d).(phase := Authorized))
  {
    hide EngineInv, FailoverGate, Legal, Inv, Settled, Boundary, StoreInv, Safe, Write, SettleDurable, Grow, CountOf, Defines, GrantedAttempt, Becomes;
    var r := GrantedAttempt(e, q, d);
    var staged := Write(e, AttemptPut(Create, r));
    EngineInvMeans(env, e, h);
    if !e.store.failed { CreateIsLegal(env, e, h, q, r); }
    WriteSafe(e, h, AttemptPut(Create, r));
    PutBecomes(e, h, Create, r);
    SafeInv(e.store, h, staged.store, h);
    if !staged.store.failed {
      WriteSucceeds(e, AttemptPut(Create, r));
      StagedOthers(env, e, h, r);
      SafeMeans(staged.store, h);
      AuthorizeIsLegal(env, staged.store.d, h, r, staged.store.limits);
      var a := r.(phase := Authorized);
      PutBecomes(staged, h, Update, a);
      var authorized := Write(staged, AttemptPut(Update, a));
      if !authorized.store.failed {
        BecomesTwice(e.store.d.attempts, staged.store.d.attempts, authorized.store.d.attempts, r, a);
        WriteSafe(staged, h, AttemptPut(Update, a));
        SafeInv(staged.store, h, authorized.store, h);
        SettleDurableCalm(env, authorized, h, d, q.key);
      }
    }
  }

  // ---- definitions ----

  /** Every attempt of `a` is in `b`, or held authority and is aborted there. */
  ghost predicate KeptOrAborted(a: seq<AttemptRecord>, b: seq<AttemptRecord>) {
    forall x :: x in a ==> x in b || (HoldsAuthority(x.phase) && AbortedIn(b, x))
  }

  ghost predicate AbortedIn(b: seq<AttemptRecord>, x: AttemptRecord) {
    exists y :: y in b && Aborts(x, y)
  }

  /** The attempt revoked by a definition: aborted, with the reason appended and all else but its update's place as it was. */
  predicate Aborts(x: AttemptRecord, y: AttemptRecord) {
    y == x.(phase := Aborted, reasons := y.reasons, updateSeq := y.updateSeq) && Appended(x.reasons, y.reasons, Reasons.FENCED, [])
  }

  lemma RevokedAborts(r: AttemptRecord, seqno: nat)
    ensures Aborts(r, Stored(Update, Revoked(r), seqno))
  {}

  lemma KeptOn(a: seq<AttemptRecord>, b: seq<AttemptRecord>, c: seq<AttemptRecord>)
    requires KeptOrAborted(a, b) && KeptOrAborted(b, c)
    ensures KeptOrAborted(a, c)
  {
    forall x | x in a ensures x in c || (HoldsAuthority(x.phase) && AbortedIn(c, x)) {
      if x !in b {
        var y :| y in b && Aborts(x, y);
        assert y in c;
      }
    }
  }

  lemma RevokeOneKeeps(e: EngineState, h: History, kind: FenceKind, rest: seq<AttemptRecord>)
    requires Midway(e, h, rest) && rest != [] && HoldsAuthority(rest[0].phase) && !e.store.failed
    ensures !RevokeOne(e, kind, rest[0]).store.failed ==>
              KeptOrAborted(e.store.d.attempts, RevokeOne(e, kind, rest[0]).store.d.attempts)
  {
    hide Inv, Legal, Describes, After, Revoking, Lookup, Upsert, AddReason;
    var r := rest[0];
    RestFound(e.store.d, rest);
    LookupSome(e.store.d.attempts, r.subject, r.seqno);
    RevokeIsLegal(e.store.d, h, r, e.store.limits);
    PutView(e.store.d, h, Update, Revoked(r), e.store.limits);
    var put := Write(e, AttemptPut(Update, Revoked(r)));
    if !put.store.failed {
      WriteSucceeds(e, AttemptPut(Update, Revoked(r)));
      FenceKeepsTable(put, Protocol.Fence(e, kind, r));
      var y := Stored(Update, Revoked(r), e.store.d.lastSeq + 1);
      var b := put.store.d.attempts;
      forall x | x in e.store.d.attempts ensures x in b || (HoldsAuthority(x.phase) && AbortedIn(b, x)) {
        if SameKey(x, r) {
          InvUnique(e.store.d, h);
          LookupIs(e.store.d.attempts, x);
          RevokedAborts(r, e.store.d.lastSeq + 1);
          assert y in b && Aborts(x, y);
        }
      }
    }
  }

  lemma FenceKeepsTable(e: EngineState, rec: Record)
    requires rec.FencePut?
    ensures Write(e, rec).store.d.attempts == e.store.d.attempts
  {}

  lemma {:induction false} RevokeAllKeeps(e: EngineState, h: History, kind: FenceKind, rest: seq<AttemptRecord>)
    requires Midway(e, h, rest)
    ensures !RevokeAll(e, kind, rest).store.failed ==> KeptOrAborted(e.store.d.attempts, RevokeAll(e, kind, rest).store.d.attempts)
    decreases |rest|
  {
    hide StoreInv, Revoking, RevokeOne, Matched, AbortedIn;
    if rest != [] && !e.store.failed {
      if HoldsAuthority(rest[0].phase) {
        var one := RevokeOne(e, kind, rest[0]);
        RevokeOneKeeps(e, h, kind, rest);
        RevokeOneMidway(e, h, kind, rest);
        RevokeAllKeeps(one, h, kind, rest[1..]);
        if !RevokeAll(one, kind, rest[1..]).store.failed {
          RevokeNotFailed(one, kind, rest[1..]);
          KeptOn(e.store.d.attempts, one.store.d.attempts, RevokeAll(one, kind, rest[1..]).store.d.attempts);
        }
      } else {
        RevokingTail(e.store.d, rest);
        RevokeAllKeeps(e, h, kind, rest[1..]);
      }
    }
  }

  lemma RevokeNotFailed(e: EngineState, kind: FenceKind, rest: seq<AttemptRecord>)
    ensures e.store.failed ==> RevokeAll(e, kind, rest).store.failed
  {}

  /**
   * A definition that goes through leaves no attempt with authority: every holder is aborted under its
   * own key, and every other attempt is untouched.
   */
  lemma InstallOutcome(env: Env, e: EngineState, h: History, rec: Record, kind: FenceKind)
    requires EngineInv(env, e, h) && Installs(rec) && (!e.store.failed ==> Legal(e.store.d, h, rec, e.store.limits))
    requires Install(e, rec, kind).1.Done?
    ensures var f := Install(e, rec, kind).0;
            && (rec.PolicyCommit? ==> f.store.d.policy == rec.policy) && (rec.TopologyCommit? ==> f.store.d.topology == rec.topology)
            && (forall x :: x in e.store.d.attempts ==>
                  if HoldsAuthority(x.phase) then AbortedIn(f.store.d.attempts, x) else x in f.store.d.attempts)
            && (forall y :: y in f.store.d.attempts ==> !HoldsAuthority(y.phase))
  {
    hide Inv, Legal, Describes, RevokeAll, Grow, AbortedIn, Revoking, Boundary;
    InstallSteps(env, e, h, rec, kind);
    CommitSafe(e.store, h, rec);
    var installed := Write(e, rec);
    var k := Grow(h, installed.store.disk);
    SafeInv(e.store, h, installed.store, k);
    InstallView(e.store.d, rec, e.store.limits);
    InstallMidway(env, e, h, installed, k);
    RevokeAllKeeps(installed, k, kind, installed.store.d.attempts);
    LiveDefinitions(installed, kind, installed.store.d.attempts);
  }

  lemma {:induction false} LiveDefinitions(e: EngineState, kind: FenceKind, rest: seq<AttemptRecord>)
    ensures RevokeAll(e, kind, rest).store.d.policy == e.store.d.policy
    ensures RevokeAll(e, kind, rest).store.d.topology == e.store.d.topology
    decreases |rest|
  {
    if rest != [] && !e.store.failed {
      if HoldsAuthority(rest[0].phase) {
        hide Write;
        WriteLive(e, AttemptPut(Update, Revoked(rest[0])));
        WriteLive(Write(e, AttemptPut(Update, Revoked(rest[0]))), Protocol.Fence(e, kind, rest[0]));
      }
      LiveDefinitions(if HoldsAuthority(rest[0].phase) then RevokeOne(e, kind, rest[0]) else e, kind, rest[1..]);
    }
  }

  lemma WriteLive(e: EngineState, rec: Record)
    requires !Installs(rec)
    ensures Write(e, rec).store.d.policy == e.store.d.policy && Write(e, rec).store.d.topology == e.store.d.topology
  {}

  /** Every holder of `a` is aborted in `b` under its own key, every other attempt is untouched, and nobody holds authority any more. */
  ghost predicate HoldersAborted(a: seq<AttemptRecord>, b: seq<AttemptRecord>) {
    && (forall x :: x in a ==> if Holder(x) then AbortedIn(b, x) else x in b)
    && (forall y :: y in b ==> !Holder(y))
  }

  lemma HoldersAre(a: seq<AttemptRecord>, b: seq<AttemptRecord>)
    requires forall x :: x in a ==> if HoldsAuthority(x.phase) then AbortedIn(b, x) else x in b
    requires forall y :: y in b ==> !HoldsAuthority(y.phase)
    ensures HoldersAborted(a, b)
  {
    hide AbortedIn;
  }

  /**
   * A newer valid policy is installed with every holder revoked; the same or an older generation
   * changes nothing. Every answer, and the fences written, are stated case by case.
   */
  lemma PolicyOutcome(env: Env, e: EngineState, h: History, p: Policy)
    requires EngineInv(env, e, h)
    ensures var (f, reply) := SetPolicy(env, e, p);
            && (e.closed || !ValidPolicy(p) || p.generation <= e.store.d.policy.generation ==> f == e)
            && (!e.closed && ValidPolicy(p) && p.generation > e.store.d.policy.generation && reply.Done? ==>
                  f.store.d.policy == p && HoldersAborted(e.store.d.attempts, f.store.d.attempts))
            && PolicyAnswered(env, e, p, f, reply)
  {
    hide EngineInv, Install, AbortedIn, HoldersAborted, PolicyAnswered;
    PolicyAnswers(env, e, p);
    if Install(e, PolicyCommit(p), PolicyChanged).1.Done? {
      InstallOutcome(env, e, h, PolicyCommit(p), PolicyChanged);
      HoldersAre(e.store.d.attempts, Install(e, PolicyCommit(p), PolicyChanged).0.store.d.attempts);
    }
  }

  /** The same for a topology, which is put in order first. */
  lemma TopologyOutcome(env: Env, e: EngineState, h: History, t: Topology)
    requires EngineInv(env, e, h) && NothingReinstated(h, e.store.disk.topology, Canonicalised(t))
    ensures var (f, reply) := SetTopology(env, e, t);
            && (reply.Done? && t.generation > e.store.d.topology.generation && !e.closed ==>
                  Arranged(t, f.store.d.topology) && HoldersAborted(e.store.d.attempts, f.store.d.attempts))
            && (t.generation <= e.store.d.topology.generation ==> f == e)
            && TopologyAnswered(env, e, t, f, reply)
  {
    hide EngineInv, Install, AbortedIn, HoldersAborted, TopologyAnswered, NothingReinstated, Legal, Arranged, TopologyFault;
    TopologyAnswers(env, e, t);
    var c := Canonicalised(t);
    CanonicalIsArranged(t);
    TopologyIsLegal(env, e, h, c);
    if Install(e, TopologyCommit(c), TopologyChanged).1.Done? {
      InstallOutcome(env, e, h, TopologyCommit(c), TopologyChanged);
      HoldersAre(e.store.d.attempts, Install(e, TopologyCommit(c), TopologyChanged).0.store.d.attempts);
    }
  }
}
