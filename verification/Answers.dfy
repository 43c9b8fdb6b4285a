/** What the calls on a recorded attempt answer, case by case, from the attempt as the table holds it. */
module Answers {
  import opened Basics
  import opened ByteBits
  import opened Reasons
  import opened Records
  import opened Lineage
  import opened Protocol

  // ---- decisions ----

  function Codes(rs: seq<Reason>): (c: seq<nat>)
    ensures |c| == |rs| && forall i :: 0 <= i < |rs| ==> c[i] == rs[i].code
  {
    seq(|rs|, i requires 0 <= i < |rs| => rs[i].code)
  }

  /** The decision's verdict: its kind, what it asserts, its outcome, and the codes of its reasons in order. */
  predicate Says(d: Decision, kind: DecisionKind, assertion: Assertion, outcome: Outcome, codes: seq<nat>) {
    d.kind == kind && d.assertion == assertion && d.outcome == outcome && Codes(d.reasons) == codes
  }

  /** One more reason, with its text cut to 160 bytes; of sixteen the oldest makes room. */
  predicate Appended(was: seq<Reason>, now: seq<Reason>, code: nat, text: seq<byte>) {
    now == (if |was| < 16 then was else was[1..]) + [Reason(code, if |text| <= 160 then text else text[..160])]
  }

  /** The decision is about this attempt, made by this process. */
  predicate About(d: Decision, e: EngineState, r: AttemptRecord) {
    && d.fabric == e.options.fabric && d.epoch == e.epoch && d.coordinator == e.incarnation
    && d.subject == r.subject && d.generation == r.generation && d.attemptSeq == r.seqno && d.attemptId == r.attemptId
    && d.replacement == r.replacement && d.replacementGeneration == r.replacementGeneration
    && (d.hasReplacement <==> r.replacement.fabric != [] && r.replacement.link != [])
  }

  /** A decision that is not written: the store is as it was. */
  ghost predicate Told(e: EngineState, f: EngineState, reply: Reply, r: AttemptRecord,
                       kind: DecisionKind, assertion: Assertion, outcome: Outcome, codes: seq<nat>, repeated: bool) {
    && f.store == e.store && reply.Decided? && !reply.decision.durable && reply.decision.idempotentReplay == repeated
    && Says(reply.decision, kind, assertion, outcome, codes) && About(reply.decision, e, r) && reply.decision.authority == r.authority
  }

  /** A write failed that the answer depends on: for want of lineage positions, or because the medium did. */
  ghost predicate Unwritten(e: EngineState, f: EngineState, reply: Reply) {
    && f.store.failed && f.storeFailed
    && reply == Failed(if !e.store.failed && f.store.d.lastSeq + 1 >= U64_LIMIT then Outcome.Exhausted else Outcome.IoError, INTERNAL_ERROR)
  }

  /** A decision that was committed, or could not be and says so; or the attempt itself could not be written. */
  ghost predicate Noted(e: EngineState, f: EngineState, reply: Reply, r: AttemptRecord, authority: AuthorityVector,
                        kind: DecisionKind, assertion: Assertion, outcome: Outcome, codes: seq<nat>) {
    if reply.Decided? then
      && Says(reply.decision, kind, assertion, outcome, if reply.decision.durable then codes else codes + [INTERNAL_ERROR])
      && About(reply.decision, e, r) && reply.decision.authority == authority && !reply.decision.idempotentReplay
      && (reply.decision.durable ==> e.store.d.lastSeq < reply.decision.lineageSeq <= f.store.d.lastSeq)
      && (!reply.decision.durable ==> f.store.failed)
    else
      Unwritten(e, f, reply)
  }

  /** What became of a decision that was to be committed. */
  predicate Written(w: Decision, d: Decision) {
    && w == d.(decisionId := w.decisionId, lineageSeq := w.lineageSeq, durable := w.durable, reasons := w.reasons)
    && w.reasons == if w.durable then d.reasons else d.reasons + [Because(INTERNAL_ERROR)]
  }

  lemma CommitMoves(s: StoreState, rec: Record)
    ensures s.d.lastSeq <= Commit(s, rec).d.lastSeq && (!Commit(s, rec).failed ==> !s.failed && Commit(s, rec).d.lastSeq == s.d.lastSeq + 1)
    ensures s.failed ==> Commit(s, rec) == s
    ensures Commit(s, rec).failed ==> Commit(s, rec).d == s.d
  {
    hide Effect, WithEntry;
  }

  /** A durable decision is the journal's next entry. */
  lemma DecisionIsJournaled(env: Env, e: EngineState, d: Decision)
    requires CommitDecision(env, e, d).1.durable && e.store.medium.journal.Some?
    ensures var f := CommitDecision(env, e, d).0;
            f.store.medium.journal.Some?
            && f.store.medium.journal.value.entries == e.store.medium.journal.value.entries + [Entry(CommitDecision(env, e, d).1.lineageSeq, DecisionCommit(d))]
  {}

  lemma DecisionIsWritten(env: Env, e: EngineState, d: Decision)
    ensures var (f, w) := CommitDecision(env, e, d);
            && Written(w, d) && (w.durable <==> !f.store.failed) && (w.durable ==> e.store.d.lastSeq < w.lineageSeq == f.store.d.lastSeq)
            && (f.store.failed ==> f.storeFailed) && e.store.d.lastSeq <= f.store.d.lastSeq
  {
    hide Commit;
    CommitMoves(e.store, DecisionCommit(d));
  }

  lemma CompactionKeepsPosition(e: EngineState)
    ensures MaybeCheckpoint(e).store.d.lastSeq >= e.store.d.lastSeq
    ensures e.store.failed ==> MaybeCheckpoint(e).store.failed
  {
    hide Commit;
    if !e.store.failed && e.store.fate.snapshot.Kept? {
      CommitMoves(e.store.(medium := Medium(Some(e.store.d), Some(Journal(e.store.d.lastSeq, []))), sinceSnapshot := 0),
                  CheckpointMark(e.store.d.lastSeq, e.store.d.recordCount));
    }
  }

  /** An attempt that is put, and the decision that follows. */
  lemma PutIsNoted(env: Env, e: EngineState, kind: PutKind, r: AttemptRecord, d: Decision, checkpoints: bool)
    ensures var (f, reply) := PutThenSettle(env, e, kind, r, d, checkpoints);
            if reply.Decided? then
              && Written(reply.decision, d) && (!reply.decision.durable ==> f.store.failed)
              && (reply.decision.durable ==> e.store.d.lastSeq < reply.decision.lineageSeq <= f.store.d.lastSeq)
            else Unwritten(e, f, reply)
  {
    hide Commit, CommitDecision, MaybeCheckpoint, Written;
    CommitMoves(e.store, AttemptPut(kind, r));
    var put := Write(e, AttemptPut(kind, r));
    DecisionIsWritten(env, put, d);
    CompactionKeepsPosition(CommitDecision(env, put, d).0);
  }

  lemma NotedFrom(e: EngineState, f: EngineState, reply: Reply, r: AttemptRecord, d: Decision,
                  kind: DecisionKind, assertion: Assertion, outcome: Outcome, codes: seq<nat>)
    requires Says(d, kind, assertion, outcome, codes) && About(d, e, r) && !d.idempotentReplay
    requires if reply.Decided? then
               && Written(reply.decision, d) && (!reply.decision.durable ==> f.store.failed)
               && (reply.decision.durable ==> e.store.d.lastSeq < reply.decision.lineageSeq <= f.store.d.lastSeq)
             else Unwritten(e, f, reply)
    ensures Noted(e, f, reply, r, d.authority, kind, assertion, outcome, codes)
  {
    assert Codes(d.reasons + [Because(INTERNAL_ERROR)]) == Codes(d.reasons) + [INTERNAL_ERROR];
  }

  /** A decision about an attempt before its verdict, and with it. */
  lemma AboutAttempt(e: EngineState, r: AttemptRecord, kind: DecisionKind, assertion: Assertion)
    ensures var d := DecisionAbout(e, r, kind, assertion);
            && About(d, e, r) && d.authority == r.authority && d.kind == kind && d.reasons == [] && !d.durable && !d.idempotentReplay
  {}

  lemma Concluded(d: Decision, assertion: Assertion, outcome: Outcome, codes: seq<nat>)
    requires d.reasons == []
    ensures var c := Conclude(d, assertion, outcome, codes);
            && Says(c, d.kind, assertion, outcome, codes) && c == d.(assertion := assertion, outcome := outcome, reasons := c.reasons)
  {
    assert [] + Listed(codes) == Listed(codes);
    assert Codes(Listed(codes)) == codes;
  }

  lemma ToldFrom(env: Env, e: EngineState, d: Decision, r: AttemptRecord, kind: DecisionKind, assertion: Assertion, outcome: Outcome, codes: seq<nat>)
    requires Says(d, kind, assertion, outcome, codes) && About(d, e, r) && d.authority == r.authority
    ensures Told(e, SettleUndurable(env, e, d).0, SettleUndurable(env, e, d).1, r, kind, assertion, outcome, codes, d.idempotentReplay)
  {
    hide Remember;
    var settled := d.(durable := false);
    RememberStore(e, settled.(decisionId := env.h.decision(settled)));
  }

  lemma RememberStore(e: EngineState, d: Decision)
    ensures Remember(e, d).store == e.store
  {}

  // ---- application ----

  predicate Ended(p: Phase) {
    p in {Phase.Refused, Phase.Indeterminate, Phase.Committed, Phase.RolledBack, Phase.Interrupted, Superseded, Aborted}
  }

  /** Every answer to an application report. */
  ghost predicate ApplicationAnswered(e: EngineState, report: ApplicationReport, f: EngineState, reply: Reply) {
    var found := Lookup(e.store.d.attempts, report.subject, report.attemptSeq);
    if e.closed then f == e && reply == Failed(Outcome.Closed, SHUTDOWN)
    else if e.storeFailed then f == e && reply == Failed(Outcome.IoError, INTERNAL_ERROR)
    else if found.None? then f.store == e.store && reply == Failed(Outcome.NotFound, ATTEMPT_UNKNOWN)
    else if found.value.generation != report.generation then f.store == e.store && reply == Failed(Outcome.Stale, SUBJECT_GENERATION_MISMATCH)
    else if found.value.attemptId != report.attemptId then f.store == e.store && reply == Failed(Outcome.Conflict, ATTEMPT_UNKNOWN)
    else if report.applier == ZERO_INCARNATION then f.store == e.store && reply == Failed(Outcome.Invalid, WORKER_MISMATCH)
    else if found.value.phase in {Phase.Committed, Phase.RolledBack} then
      Told(e, f, reply, found.value, Acknowledge, Acknowledgement, Outcome.Conflict, [LATE_ACKNOWLEDGEMENT], false)
    else if Ended(found.value.phase) then
      Told(e, f, reply, found.value, Acknowledge, Acknowledgement, Outcome.Conflict, [ATTEMPT_COMPLETED], false)
    else if found.value.phase == Evaluated then
      Told(e, f, reply, found.value, Acknowledge, Acknowledgement, Outcome.Conflict, [ATTEMPT_UNKNOWN], false)
    else if found.value.phase in {Acknowledged, Phase.Verified} then
      Told(e, f, reply, found.value, Acknowledge, Acknowledgement, Outcome.Conflict, [DUPLICATE_COMPLETION], false)
    else if report.accepted then
      Noted(e, f, reply, found.value, found.value.authority, Acknowledge, Acknowledgement, Outcome.Ok, [ACKNOWLEDGEMENT_NOT_EFFECT])
    else
      Noted(e, f, reply, found.value, found.value.authority, Acknowledge, Acknowledgement, Outcome.Refused, [BACKEND_REJECTED])
  }

  lemma ApplicationAnswers(env: Env, e: EngineState, report: ApplicationReport)
    ensures ApplicationAnswered(e, report, RecordApplication(env, e, report).0, RecordApplication(env, e, report).1)
  {
    hide Lookup, PutThenSettle, SettleUndurable, DecisionAbout, Conclude, AddReason, Told, Noted, Says, About, Written;
    var t := e.(tick := e.tick + 1);
    var found := Lookup(e.store.d.attempts, report.subject, report.attemptSeq);
    if !e.closed && !e.storeFailed && found.Some? {
      var r := found.value;
      AboutAttempt(t, r, Acknowledge, Acknowledgement);
      var d := DecisionAbout(t, r, Acknowledge, Acknowledgement);
      ReadsAnswers(env, e, t, r, Acknowledge, d, Acknowledgement, Outcome.Conflict, LATE_ACKNOWLEDGEMENT);
      ReadsAnswers(env, e, t, r, Acknowledge, d, Acknowledgement, Outcome.Conflict, ATTEMPT_COMPLETED);
      ReadsAnswers(env, e, t, r, Acknowledge, d, Acknowledgement, Outcome.Conflict, ATTEMPT_UNKNOWN);
      ReadsAnswers(env, e, t, r, Acknowledge, d, Acknowledgement, Outcome.Conflict, DUPLICATE_COMPLETION);
      var updated := WithApplication(r, report, t.store.d.policy.requireVerifiedEffect);
      var kind := if updated.phase.Committed? then Completion else Update;
      PutAnswers(env, e, t, kind, updated, r, Acknowledge, d, Acknowledgement, Outcome.Ok, [ACKNOWLEDGEMENT_NOT_EFFECT], true);
      PutAnswers(env, e, t, kind, updated, r, Acknowledge, d, Acknowledgement, Outcome.Refused, [BACKEND_REJECTED], true);
    }
  }

  /** A concluded decision that is told. */
  lemma ReadsAnswers(env: Env, e: EngineState, t: EngineState, r: AttemptRecord, kind: DecisionKind, d: Decision,
                     assertion: Assertion, outcome: Outcome, code: nat)
    requires t == e.(tick := e.tick + 1) && About(d, t, r) && d.authority == r.authority && d.kind == kind && d.reasons == []
    ensures var c := Conclude(d, assertion, outcome, [code]);
            && Told(e, SettleUndurable(env, t, c).0, SettleUndurable(env, t, c).1, r, kind, assertion, outcome, [code], d.idempotentReplay)
            && Told(e, SettleUndurable(env, t, c.(idempotentReplay := true)).0, SettleUndurable(env, t, c.(idempotentReplay := true)).1,
                    r, kind, assertion, outcome, [code], true)
  {
    hide Conclude, SettleUndurable;
    Concluded(d, assertion, outcome, [code]);
    var c := Conclude(d, assertion, outcome, [code]);
    ToldFrom(env, t, c, r, kind, assertion, outcome, [code]);
    ToldFrom(env, t, c.(idempotentReplay := true), r, kind, assertion, outcome, [code]);
  }

  /** A concluded decision that is noted after a put. */
  lemma PutAnswers(env: Env, e: EngineState, t: EngineState, put: PutKind, x: AttemptRecord, r: AttemptRecord, kind: DecisionKind, d: Decision,
                   assertion: Assertion, outcome: Outcome, codes: seq<nat>, checkpoints: bool)
    requires t == e.(tick := e.tick + 1) && About(d, t, r) && d.kind == kind && d.reasons == [] && !d.idempotentReplay
    ensures var (f, reply) := PutThenSettle(env, t, put, x, Conclude(d, assertion, outcome, codes), checkpoints);
            Noted(e, f, reply, r, d.authority, kind, assertion, outcome, codes)
  {
    hide Conclude, PutThenSettle, Says, Written;
    var c := Conclude(d, assertion, outcome, codes);
    Concluded(d, assertion, outcome, codes);
    PutIsNoted(env, t, put, x, c, checkpoints);
    var (f, reply) := PutThenSettle(env, t, put, x, c, checkpoints);
    NotedFrom(e, f, reply, r, c, kind, assertion, outcome, codes);
  }

  // ---- verification ----

  /** Every answer to a verification report. */
  ghost predicate VerificationAnswered(e: EngineState, report: VerificationReport, f: EngineState, reply: Reply) {
    var found := Lookup(e.store.d.attempts, report.subject, report.attemptSeq);
    if e.closed then f == e && reply == Failed(Outcome.Closed, SHUTDOWN)
    else if e.storeFailed then f == e && reply == Failed(Outcome.IoError, INTERNAL_ERROR)
    else if found.None? then f.store == e.store && reply == Failed(Outcome.NotFound, ATTEMPT_UNKNOWN)
    else if found.value.attemptId != report.attemptId then f.store == e.store && reply == Failed(Outcome.Conflict, ATTEMPT_UNKNOWN)
    else if found.value.phase in {Phase.Committed, Phase.Verified} then
      Told(e, f, reply, found.value, DecisionKind.Verify, VerifiedEffect, Outcome.Conflict, [DUPLICATE_COMPLETION], false)
    else if found.value.phase != Acknowledged then
      Told(e, f, reply, found.value, DecisionKind.Verify, Observation, Outcome.Conflict, [LATE_ACKNOWLEDGEMENT], false)
    else if !report.effectObserved then
      Noted(e, f, reply, found.value, found.value.authority, DecisionKind.Verify, Acknowledgement, Outcome.Indeterminate, [EFFECT_UNVERIFIED])
    else
      Noted(e, f, reply, found.value, found.value.authority, DecisionKind.Verify, VerifiedEffect, Outcome.Ok, [EFFECT_VERIFIED])
  }

  lemma VerificationAnswers(env: Env, e: EngineState, report: VerificationReport)
    ensures VerificationAnswered(e, report, RecordVerification(env, e, report).0, RecordVerification(env, e, report).1)
  {
    hide Lookup, PutThenSettle, SettleUndurable, DecisionAbout, Conclude, AddReason, Told, Noted, Says, About, Written, Commit;
    var t := e.(tick := e.tick + 1);
    var found := Lookup(e.store.d.attempts, report.subject, report.attemptSeq);
    if !e.closed && !e.storeFailed && found.Some? {
      var r := found.value;
      AboutAttempt(t, r, DecisionKind.Verify, Nothing);
      var d := DecisionAbout(t, r, DecisionKind.Verify, Nothing);
      ReadsAnswers(env, e, t, r, DecisionKind.Verify, d, VerifiedEffect, Outcome.Conflict, DUPLICATE_COMPLETION);
      ReadsAnswers(env, e, t, r, DecisionKind.Verify, d, Observation, Outcome.Conflict, LATE_ACKNOWLEDGEMENT);
      PutAnswers(env, e, t, Update, WithoutEffect(r, report), r, DecisionKind.Verify, d, Acknowledgement, Outcome.Indeterminate, [EFFECT_UNVERIFIED], false);
      var verified := WithEffect(r, report);
      var put := Write(t, AttemptPut(Update, verified));
      CommitMoves(t.store, AttemptPut(Update, verified));
      EffectAnswers(env, e, t, put, verified, r, d);
    }
  }

  lemma EffectAnswers(env: Env, e: EngineState, t: EngineState, put: EngineState, verified: AttemptRecord, r: AttemptRecord, d: Decision)
    requires t == e.(tick := e.tick + 1) && put == Write(t, AttemptPut(Update, verified))
    requires About(d, t, r) && d.kind == DecisionKind.Verify && d.reasons == [] && !d.idempotentReplay
    ensures var (f, reply) := PutEffectThenCommit(env, t, verified, Conclude(d, VerifiedEffect, Outcome.Ok, [EFFECT_VERIFIED]));
            Noted(e, f, reply, r, d.authority, DecisionKind.Verify, VerifiedEffect, Outcome.Ok, [EFFECT_VERIFIED])
  {
    hide Conclude, PutThenSettle, Says, Written, Commit;
    var c := Conclude(d, VerifiedEffect, Outcome.Ok, [EFFECT_VERIFIED]);
    Concluded(d, VerifiedEffect, Outcome.Ok, [EFFECT_VERIFIED]);
    CommitMoves(t.store, AttemptPut(Update, verified));
    PutIsNoted(env, put, Completion, verified.(phase := Phase.Committed), c, true);
    var (f, reply) := PutEffectThenCommit(env, t, verified, c);
    NotedFrom(e, f, reply, r, c, DecisionKind.Verify, VerifiedEffect, Outcome.Ok, [EFFECT_VERIFIED]);
  }

  // ---- what a caller expects ----

  /** Whatever the caller expects is so: the process, the definitions in force, their digests, and the generation at hand. */
  predicate Agrees(env: Env, e: EngineState, generation: nat, x: Expectation) {
    var d := e.store.d;
    && (x.epoch.Some? ==> x.epoch.value == e.epoch)
    && (x.coordinator.Some? ==> x.coordinator.value == e.incarnation)
    && (x.topologyGeneration.Some? ==> x.topologyGeneration.value == d.topology.generation)
    && (x.policyGeneration.Some? ==> x.policyGeneration.value == d.policy.generation)
    && (x.subjectGeneration.Some? ==> x.subjectGeneration.value == generation)
    && (x.policyDigest.Some? ==> x.policyDigest.value == env.h.policy(d.policy))
    && (x.topologyDigest.Some? ==> x.topologyDigest.value == env.h.topology(d.topology))
  }

  function Unmet(unmet: bool, code: nat): seq<nat> { if unmet then [code] else [] }

  /** One code for each expectation that is not met, in the order in which they are looked at. */
  function Complaints(env: Env, e: EngineState, generation: nat, x: Expectation): (c: seq<nat>)
    ensures c == [] <==> Agrees(env, e, generation, x)
  {
    var d := e.store.d;
    Unmet(x.epoch.Some? && x.epoch.value != e.epoch, EPOCH_MISMATCH) +
    Unmet(x.coordinator.Some? && x.coordinator.value != e.incarnation, COORDINATOR_MISMATCH) +
    Unmet(x.topologyGeneration.Some? && x.topologyGeneration.value != d.topology.generation, TOPOLOGY_GENERATION_MISMATCH) +
    Unmet(x.policyGeneration.Some? && x.policyGeneration.value != d.policy.generation, POLICY_GENERATION_MISMATCH) +
    Unmet(x.subjectGeneration.Some? && x.subjectGeneration.value != generation, SUBJECT_GENERATION_MISMATCH) +
    Unmet(x.policyDigest.Some? && x.policyDigest.value != env.h.policy(d.policy), POLICY_GENERATION_MISMATCH) +
    Unmet(x.topologyDigest.Some? && x.topologyDigest.value != env.h.topology(d.topology), TOPOLOGY_GENERATION_MISMATCH)
  }

  lemma CodesJoin(a: seq<Reason>, b: seq<Reason>)
    ensures Codes(a + b) == Codes(a) + Codes(b)
  {}

  lemma CodesOfOne<T>(expected: Option<T>, actual: T, code: nat)
    ensures Codes(MismatchIf(expected, actual, code)) == Unmet(expected.Some? && expected.value != actual, code)
  {}

  lemma SevenCodes(a: seq<Reason>, b: seq<Reason>, c: seq<Reason>, d: seq<Reason>, e: seq<Reason>, f: seq<Reason>, g: seq<Reason>)
    ensures Codes(a + b + c + d + e + f + g) == Codes(a) + Codes(b) + Codes(c) + Codes(d) + Codes(e) + Codes(f) + Codes(g)
  {
    hide Codes;
    CodesJoin(a, b);
    CodesJoin(a + b, c);
    CodesJoin(a + b + c, d);
    CodesJoin(a + b + c + d, e);
    CodesJoin(a + b + c + d + e, f);
    CodesJoin(a + b + c + d + e + f, g);
  }

  /** The engine's comparison finds exactly the expectations that are not met. */
  lemma ComplaintsAre(env: Env, e: EngineState, subject: LinkKey, generation: nat, x: Expectation)
    ensures Codes(Mismatches(x, CurrentAuthority(env, e, subject, generation))) == Complaints(env, e, generation, x)
    ensures Mismatches(x, CurrentAuthority(env, e, subject, generation)) == [] <==> Agrees(env, e, generation, x)
  {
    hide MismatchIf, Unmet, Codes;
    var a := CurrentAuthority(env, e, subject, generation);
    CodesOfOne(x.epoch, a.epoch, EPOCH_MISMATCH);
    CodesOfOne(x.coordinator, a.coordinator, COORDINATOR_MISMATCH);
    CodesOfOne(x.topologyGeneration, a.topologyGeneration, TOPOLOGY_GENERATION_MISMATCH);
    CodesOfOne(x.policyGeneration, a.policyGeneration, POLICY_GENERATION_MISMATCH);
    CodesOfOne(x.subjectGeneration, a.subjectGeneration, SUBJECT_GENERATION_MISMATCH);
    CodesOfOne(x.policyDigest, a.policyDigest, POLICY_GENERATION_MISMATCH);
    CodesOfOne(x.topologyDigest, a.topologyDigest, TOPOLOGY_GENERATION_MISMATCH);
    SevenCodes(MismatchIf(x.epoch, a.epoch, EPOCH_MISMATCH), MismatchIf(x.coordinator, a.coordinator, COORDINATOR_MISMATCH),
               MismatchIf(x.topologyGeneration, a.topologyGeneration, TOPOLOGY_GENERATION_MISMATCH),
               MismatchIf(x.policyGeneration, a.policyGeneration, POLICY_GENERATION_MISMATCH),
               MismatchIf(x.subjectGeneration, a.subjectGeneration, SUBJECT_GENERATION_MISMATCH),
               MismatchIf(x.policyDigest, a.policyDigest, POLICY_GENERATION_MISMATCH),
               MismatchIf(x.topologyDigest, a.topologyDigest, TOPOLOGY_GENERATION_MISMATCH));
    EmptyCodes(Mismatches(x, a));
  }

  lemma EmptyCodes(a: seq<Reason>)
    ensures Codes(a) == [] <==> a == []
  {}

  // ---- replays ----

  /** The entry's decision again, marked as a repetition by this process. */
  predicate Repeats(e: EngineState, reply: Reply, x: IdempotencyEntry) {
    && reply.Decided?
    && var d := reply.decision;
       && d.decisionId == x.decisionId && d.kind == x.kind && d.assertion == x.assertion && d.outcome == x.outcome
       && d.subject == x.subject && d.generation == x.generation && d.hasReplacement == x.hasReplacement && d.replacement == x.replacement
       && d.replacementGeneration == x.replacementGeneration && d.attemptSeq == x.attemptSeq && d.lineageSeq == x.seqno
       && d.durable && d.idempotentReplay && Codes(d.reasons) == Codes(x.reasons) + [IDEMPOTENT_REPLAY]
       && d.fabric == e.options.fabric && d.epoch == e.epoch && d.coordinator == e.incarnation
  }

  lemma ReplayRepeats(e: EngineState, x: IdempotencyEntry)
    ensures Repeats(e, Decided(ReplayDecision(e, x)), x)
  {
    assert Codes(x.reasons + [Because(IDEMPOTENT_REPLAY)]) == Codes(x.reasons) + [IDEMPOTENT_REPLAY];
  }

  /** The entry that a decision leaves, so that a replay answers what was decided. */
  lemma EntryKeepsDecision(e: EngineState, d: Decision, key: Digest)
    ensures EntryFor(d, key).key == key
    ensures var again := ReplayDecision(e, EntryFor(d, key));
            && again.decisionId == d.decisionId && again.kind == d.kind && again.assertion == d.assertion && again.outcome == d.outcome
            && again.subject == d.subject && again.generation == d.generation && again.hasReplacement == d.hasReplacement
            && again.replacement == d.replacement && again.replacementGeneration == d.replacementGeneration
            && again.attemptSeq == d.attemptSeq && again.lineageSeq == d.lineageSeq
            && Codes(again.reasons) == Codes(d.reasons) + [IDEMPOTENT_REPLAY]
  {
    assert Codes(d.reasons + [Because(IDEMPOTENT_REPLAY)]) == Codes(d.reasons) + [IDEMPOTENT_REPLAY];
  }

  // ---- rollback ----

  /** Every answer to a rollback request. */
  ghost predicate RollbackAnswered(env: Env, e: EngineState, q: RollbackRequest, f: EngineState, reply: Reply) {
    var entry := FindEntry(e.store.d.idempotency, q.key);
    var found := Lookup(e.store.d.attempts, q.subject, q.attemptSeq);
    if e.closed then f == e && reply == Failed(Outcome.Closed, SHUTDOWN)
    else if entry.Some? then f.store == e.store && Repeats(e, reply, entry.value)
    else if found.None? then f.store == e.store && reply == Failed(Outcome.NotFound, ATTEMPT_UNKNOWN)
    else if !Agrees(env, e, found.value.generation, q.expected) then
      Told(e, f, reply, found.value, DecisionKind.Rollback, Observation, Outcome.Stale,
           [STALE_AUTHORITY] + Complaints(env, e, found.value.generation, q.expected), false)
    else if found.value.phase == Phase.RolledBack then
      Told(e, f, reply, found.value, DecisionKind.Rollback, Authorization, Outcome.Ok, [IDEMPOTENT_REPLAY], true)
    else if found.value.phase !in {Authorized, Acknowledged, Phase.Verified, Phase.Committed} then
      Told(e, f, reply, found.value, DecisionKind.Rollback, Observation, Outcome.Conflict, [ROLLBACK_NOT_AUTHORIZED], false)
    else
      Noted(e, f, reply, found.value, found.value.authority, DecisionKind.Rollback, Authorization, Outcome.Ok,
            [ROLLBACK_COMPLETED, RESTORE_REQUIRES_NEW_GENERATION])
  }

  lemma RollbackAnswers(env: Env, e: EngineState, q: RollbackRequest)
    ensures RollbackAnswered(env, e, q, RequestRollback(env, e, q).0, RequestRollback(env, e, q).1)
  {
    hide Lookup, FindEntry, RevertAuthority, SettleUndurable, DecisionAbout, Conclude, AddReason, Told, Noted, Says, About, Mismatches, CurrentAuthority,
      Agrees, Complaints, Repeats, ReplayDecision;
    var t := e.(tick := e.tick + 1);
    var entry := FindEntry(e.store.d.idempotency, q.key);
    var found := Lookup(e.store.d.attempts, q.subject, q.attemptSeq);
    if !e.closed {
      if entry.Some? {
        RepeatsNow(e, t, entry.value);
      } else if found.Some? {
        var r := found.value;
        AboutAttempt(t, r, DecisionKind.Rollback, Nothing);
        var d := DecisionAbout(t, r, DecisionKind.Rollback, Nothing);
        ExpectsNow(env, e, t, r.generation, q.expected);
        ComplaintsAre(env, t, q.subject, r.generation, q.expected);
        StaleIsTold(env, e, t, r, d, Mismatches(q.expected, CurrentAuthority(env, t, q.subject, r.generation)));
        ReadsAnswers(env, e, t, r, DecisionKind.Rollback, d, Authorization, Outcome.Ok, IDEMPOTENT_REPLAY);
        ReadsAnswers(env, e, t, r, DecisionKind.Rollback, d, Observation, Outcome.Conflict, ROLLBACK_NOT_AUTHORIZED);
        RevertAnswers(env, e, t, r, WithRollback(r, q.rationale), d, q.key);
      }
    }
  }

  lemma RepeatsNow(e: EngineState, t: EngineState, x: IdempotencyEntry)
    requires t == e.(tick := e.tick + 1)
    ensures Repeats(e, Decided(ReplayDecision(t, x)), x)
  {
    hide Codes;
    ReplayRepeats(t, x);
  }

  /** The clock is no part of what a caller expects. */
  lemma ExpectsNow(env: Env, e: EngineState, t: EngineState, generation: nat, x: Expectation)
    requires t == e.(tick := e.tick + 1)
    ensures Agrees(env, t, generation, x) == Agrees(env, e, generation, x)
    ensures Complaints(env, t, generation, x) == Complaints(env, e, generation, x)
  {
    hide Unmet;
  }

  lemma StaleIsTold(env: Env, e: EngineState, t: EngineState, r: AttemptRecord, d: Decision, mismatches: seq<Reason>)
    requires t == e.(tick := e.tick + 1) && About(d, t, r) && d.authority == r.authority && d.kind == DecisionKind.Rollback && !d.idempotentReplay
    ensures var said := d.(assertion := Observation, outcome := Outcome.Stale, reasons := [Because(STALE_AUTHORITY)] + mismatches);
            Told(e, SettleUndurable(env, t, said).0, SettleUndurable(env, t, said).1, r, DecisionKind.Rollback, Observation, Outcome.Stale,
                 [STALE_AUTHORITY] + Codes(mismatches), false)
  {
    hide SettleUndurable;
    var said := d.(assertion := Observation, outcome := Outcome.Stale, reasons := [Because(STALE_AUTHORITY)] + mismatches);
    assert Codes(said.reasons) == [STALE_AUTHORITY] + Codes(mismatches);
    ToldFrom(env, t, said, r, DecisionKind.Rollback, Observation, Outcome.Stale, [STALE_AUTHORITY] + Codes(mismatches));
  }

  lemma RevertAnswers(env: Env, e: EngineState, t: EngineState, r: AttemptRecord, x: AttemptRecord, d: Decision, key: Digest)
    requires t == e.(tick := e.tick + 1) && About(d, t, r) && d.kind == DecisionKind.Rollback && d.reasons == [] && !d.idempotentReplay
    ensures var codes := [ROLLBACK_COMPLETED, RESTORE_REQUIRES_NEW_GENERATION];
            var (f, reply) := RevertAuthority(env, t, r, x, Conclude(d, Authorization, Outcome.Ok, codes), key);
            Noted(e, f, reply, r, d.authority, DecisionKind.Rollback, Authorization, Outcome.Ok, codes)
  {
    hide Conclude, RevertAuthority, Says, Written;
    var codes := [ROLLBACK_COMPLETED, RESTORE_REQUIRES_NEW_GENERATION];
    var c := Conclude(d, Authorization, Outcome.Ok, codes);
    Concluded(d, Authorization, Outcome.Ok, codes);
    RevertIsNoted(env, t, r, x, c, key);
    var (f, reply) := RevertAuthority(env, t, r, x, c, key);
    NotedFrom(e, f, reply, r, c, DecisionKind.Rollback, Authorization, Outcome.Ok, codes);
  }

  lemma RevertIsNoted(env: Env, e: EngineState, was: AttemptRecord, r: AttemptRecord, d: Decision, key: Digest)
    ensures var (f, reply) := RevertAuthority(env, e, was, r, d, key);
            if reply.Decided? then
              && Written(reply.decision, d) && (!reply.decision.durable ==> f.store.failed)
              && (reply.decision.durable ==> e.store.d.lastSeq < reply.decision.lineageSeq <= f.store.d.lastSeq)
            else Unwritten(e, f, reply)
  {
    hide Commit, CommitDecision, Written, Protocol.Fence, EntryFor;
    CommitMoves(e.store, AttemptPut(PutKind.Rollback, r));
    var put := Write(e, AttemptPut(PutKind.Rollback, r));
    var fence := Protocol.Fence(e, RollbackRevoked, was);
    CommitMoves(put.store, fence);
    var fenced := Write(put, fence);
    DecisionIsWritten(env, fenced, d);
    var (decided, written) := CommitDecision(env, fenced, d);
    CommitMoves(decided.store, IdempotencyIndex(EntryFor(written, key)));
  }

  // ---- revalidation ----

  /** The vector with the process and the definitions in force, and all else as it was. */
  predicate BoundAnew(env: Env, e: EngineState, was: AuthorityVector, now: AuthorityVector) {
    && now.epoch == e.epoch && now.coordinator == e.incarnation
    && now.policyGeneration == e.store.d.policy.generation && now.policyDigest == env.h.policy(e.store.d.policy)
    && now.topologyGeneration == e.store.d.topology.generation && now.topologyDigest == env.h.topology(e.store.d.topology)
    && now.fabric == was.fabric && now.subject == was.subject && now.subjectGeneration == was.subjectGeneration
    && now.replacement == was.replacement && now.replacementGeneration == was.replacementGeneration
    && now.evidencePublisher == was.evidencePublisher && now.publisherIncarnation == was.publisherIncarnation && now.publisherSeq == was.publisherSeq
    && now.applierIncarnation == was.applierIncarnation && now.attemptSeq == was.attemptSeq && now.evidenceDigest == was.evidenceDigest
  }

  /** Every answer to a revalidation. */
  ghost predicate ResolutionAnswered(env: Env, e: EngineState, q: RevalidationRequest, f: EngineState, reply: Reply) {
    var found := Lookup(e.store.d.attempts, q.subject, q.attemptSeq);
    if e.closed then f == e && reply == Failed(Outcome.Closed, SHUTDOWN)
    else if q.observer == ZERO_INCARNATION then f == e && reply == Failed(Outcome.Invalid, WORKER_MISMATCH)
    else if q.observerEpoch != e.epoch then f == e && reply == Failed(Outcome.Stale, EPOCH_MISMATCH)
    else if found.None? then f.store == e.store && reply == Failed(Outcome.NotFound, ATTEMPT_UNKNOWN)
    else if found.value.revalidated then
      Told(e, f, reply, found.value, Revalidate, if found.value.revalidation == Applied then Authorization else Observation,
           if found.value.revalidation == Revalidation.Unknown then Outcome.Indeterminate else Outcome.Ok, [IDEMPOTENT_REPLAY], true)
    else if found.value.phase != Phase.Interrupted then
      Told(e, f, reply, found.value, Revalidate, Observation, Outcome.Conflict, [ATTEMPT_COMPLETED], false)
    else
      match q.verdict
      case NotApplied =>
        Noted(e, f, reply, found.value, found.value.authority, Revalidate, Observation, Outcome.Ok,
              [FENCED, LINEAGE_PRESERVED, DYNAMIC_STATE_NOT_RESTORED])
      case Applied =>
        exists a :: BoundAnew(env, e, found.value.authority, a)
          && Noted(e, f, reply, found.value, a, Revalidate, Authorization, Outcome.Ok,
                   [EFFECT_VERIFIED]
                   + Unmet(found.value.authority.policyGeneration != e.store.d.policy.generation, POLICY_GENERATION_MISMATCH)
                   + Unmet(found.value.authority.topologyGeneration != e.store.d.topology.generation, TOPOLOGY_GENERATION_MISMATCH)
                   + [LINEAGE_PRESERVED, DYNAMIC_STATE_NOT_RESTORED])
      case Unknown =>
        Noted(e, f, reply, found.value, found.value.authority, Revalidate, Observation, Outcome.Indeterminate,
              [BACKEND_UNKNOWN, LINEAGE_PRESERVED, DYNAMIC_STATE_NOT_RESTORED])
  }

  lemma ResolutionAnswers(env: Env, e: EngineState, q: RevalidationRequest)
    ensures ResolutionAnswered(env, e, q, ResolveInterrupted(env, e, q).0, ResolveInterrupted(env, e, q).1)
  {
    hide Lookup, PutThenSettle, SettleUndurable, DecisionAbout, Conclude, WithVerdict, RevalidationDecision, Told, Noted, Says, About, Written, BoundAnew;
    var t := e.(tick := e.tick + 1);
    var found := Lookup(e.store.d.attempts, q.subject, q.attemptSeq);
    if !e.closed && q.observer != ZERO_INCARNATION && q.observerEpoch == e.epoch && found.Some? {
      var r := found.value;
      AboutAttempt(t, r, Revalidate, Observation);
      var d := DecisionAbout(t, r, Revalidate, Observation);
      ReadsAnswers(env, e, t, r, Revalidate, d, if r.revalidation.Applied? then Authorization else Observation,
                   if r.revalidation.Unknown? then Outcome.Indeterminate else Outcome.Ok, IDEMPOTENT_REPLAY);
      ReadsAnswers(env, e, t, r, Revalidate, d, Observation, Outcome.Conflict, ATTEMPT_COMPLETED);
      VerdictAnswers(env, e, t, r, d, q.verdict);
    }
  }

  lemma ReboundIs(env: Env, e: EngineState, t: EngineState, a: AuthorityVector)
    requires t == e.(tick := e.tick + 1)
    ensures BoundAnew(env, e, a, Rebound(env, t, a))
  {}

  lemma VerdictAnswers(env: Env, e: EngineState, t: EngineState, r: AttemptRecord, d: Decision, verdict: Revalidation)
    requires t == e.(tick := e.tick + 1) && About(d, t, r) && d.authority == r.authority && d.kind == Revalidate && d.reasons == [] && !d.idempotentReplay
    ensures var (f, reply) := PutThenSettle(env, t, if verdict.Applied? then Completion else Update, WithVerdict(env, t, r, verdict),
                                            RevalidationDecision(env, t, r, d, verdict), false);
            match verdict
            case NotApplied => Noted(e, f, reply, r, r.authority, Revalidate, Observation, Outcome.Ok, [FENCED, LINEAGE_PRESERVED, DYNAMIC_STATE_NOT_RESTORED])
            case Applied => exists a :: BoundAnew(env, e, r.authority, a)
                              && Noted(e, f, reply, r, a, Revalidate, Authorization, Outcome.Ok,
                                       [EFFECT_VERIFIED]
                                       + Unmet(r.authority.policyGeneration != e.store.d.policy.generation, POLICY_GENERATION_MISMATCH)
                                       + Unmet(r.authority.topologyGeneration != e.store.d.topology.generation, TOPOLOGY_GENERATION_MISMATCH)
                                       + [LINEAGE_PRESERVED, DYNAMIC_STATE_NOT_RESTORED])
            case Unknown => Noted(e, f, reply, r, r.authority, Revalidate, Observation, Outcome.Indeterminate,
                                  [BACKEND_UNKNOWN, LINEAGE_PRESERVED, DYNAMIC_STATE_NOT_RESTORED])
  {
    hide PutThenSettle, Conclude, Noted, Says, About, BoundAnew, WithVerdict, Rebound;
    var x := WithVerdict(env, t, r, verdict);
    match verdict
    case NotApplied =>
      assert [FENCED] + [LINEAGE_PRESERVED, DYNAMIC_STATE_NOT_RESTORED] == [FENCED, LINEAGE_PRESERVED, DYNAMIC_STATE_NOT_RESTORED];
      PutAnswers(env, e, t, Update, x, r, Revalidate, d, Observation, Outcome.Ok, [FENCED] + [LINEAGE_PRESERVED, DYNAMIC_STATE_NOT_RESTORED], false);
    case Applied =>
      var a := Rebound(env, t, r.authority);
      ReboundIs(env, e, t, r.authority);
      var codes := [EFFECT_VERIFIED]
                   + Unmet(r.authority.policyGeneration != e.store.d.policy.generation, POLICY_GENERATION_MISMATCH)
                   + Unmet(r.authority.topologyGeneration != e.store.d.topology.generation, TOPOLOGY_GENERATION_MISMATCH)
                   + [LINEAGE_PRESERVED, DYNAMIC_STATE_NOT_RESTORED];
      AboutWith(d, t, r, a);
      Reordered(d, Authorization, Outcome.Ok, codes, a);
      PutAnswers(env, e, t, Completion, x, r, Revalidate, d.(authority := a), Authorization, Outcome.Ok, codes, false);
    case Unknown =>
      assert [BACKEND_UNKNOWN] + [LINEAGE_PRESERVED, DYNAMIC_STATE_NOT_RESTORED] == [BACKEND_UNKNOWN, LINEAGE_PRESERVED, DYNAMIC_STATE_NOT_RESTORED];
      PutAnswers(env, e, t, Update, x, r, Revalidate, d, Observation, Outcome.Indeterminate, [BACKEND_UNKNOWN] + [LINEAGE_PRESERVED, DYNAMIC_STATE_NOT_RESTORED], false);
  }

  lemma AboutWith(d: Decision, e: EngineState, r: AttemptRecord, a: AuthorityVector)
    requires About(d, e, r)
    ensures About(d.(authority := a), e, r)
  {}

  lemma Reordered(d: Decision, assertion: Assertion, outcome: Outcome, codes: seq<nat>, a: AuthorityVector)
    ensures Conclude(d.(authority := a), assertion, outcome, codes) == Conclude(d, assertion, outcome, codes).(authority := a)
  {}
}
