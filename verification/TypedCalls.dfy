/** Every call of an engine whose values are in their ranges writes only records whose values are. */
module TypedCalls {
  import opened Basics
  import opened Reasons
  import opened Records
  import opened Lineage
  import opened RecordCodec
  import opened Payloads
  import opened Protocol
  import opened TypedStore
  import Evidence
  import Gate
  import Grants
  import IndexEntries
  import Resolution
  import Selector
  import Sorting
  import Verdicts

  // ---- the engine's own bound, digests, evidence and requests ----

  /** The index takes exactly the entries within its bound of 4096 bytes, and every digest has 32 bytes. */
  ghost predicate RealEnv(env: Env) {
    && IndexEntries.RealIndex(env)
    && (forall p: Policy :: IsDigest(env.h.policy(p))) && (forall t: Topology :: IsDigest(env.h.topology(t)))
    && (forall f: Name, k: LinkKey, g: nat, n: nat :: IsDigest(env.h.attempt(f, k, g, n)))
    && (forall r: FailureReport :: IsDigest(env.h.failure(r))) && (forall r: ReplacementReport :: IsDigest(env.h.replacement(r)))
  }

  predicate TypedStamp(s: Stamp) { ValidName(s.publisher) && IsIncarnation(s.incarnation) && Long(s.seqno) }

  predicate TypedReplacement(r: ReplacementReport) {
    TypedStamp(r.stamp) && r.confidence <= MAX_CONFIDENCE && Word(r.capacity) && Word(r.cost)
  }

  predicate TypedBook(b: Evidence.Book) {
    && (forall x :: x in b.failure ==> TypedStamp(b.failure[x].report.stamp) && IsDigest(b.failure[x].digest))
    && (forall x :: x in b.replacement ==> TypedReplacement(b.replacement[x].report) && IsDigest(b.replacement[x].digest))
  }

  predicate TypedEngine(e: EngineState) {
    && ValidName(e.options.fabric) && IsIncarnation(e.incarnation) && Long(e.epoch) && Long(e.tick)
    && TypedStoreState(e.store) && TypedBook(e.book)
  }

  predicate TypedRequest(q: FailoverRequest) {
    IsDigest(q.key) && forall c :: c in q.candidates ==> LinkOk(c.link) && Long(c.expectedGeneration)
  }

  predicate TypedCall(call: Call) {
    match call
    case Observing(o) => TypedStamp(Evidence.StampOf(o)) && (o.OfCandidate? ==> TypedReplacement(o.replacement))
    case SettingPolicy(p) => PolicyOk(p)
    case SettingTopology(t) => Long(t.generation) && forall d :: d in t.links ==> DefinitionOk(d)
    case Requesting(q) => TypedRequest(q)
    case Applying(r) => IsIncarnation(r.applier)
    case RollingBack(q) => IsDigest(q.key)
    case _ => true
  }

  // ---- writes ----

  /** The store moved, and nothing else. */
  predicate Wrote(e: EngineState, f: EngineState) {
    f.options == e.options && f.incarnation == e.incarnation && f.epoch == e.epoch && f.tick == e.tick && f.book == e.book
  }

  lemma WriteTyped(e: EngineState, rec: Record)
    requires TypedEngine(e) && TypedRecord(rec)
    ensures TypedEngine(Write(e, rec)) && Wrote(e, Write(e, rec))
    ensures !Write(e, rec).store.failed ==> Long(Write(e, rec).store.d.lastSeq)
  {
    hide Commit, TypedRecord, TypedStoreState, TypedBook;
    CommitTyped(e.store, rec);
  }

  lemma CompactionTyped(e: EngineState)
    requires TypedEngine(e)
    ensures TypedEngine(TakeCheckpoint(e).0) && Wrote(e, TakeCheckpoint(e).0)
    ensures TypedEngine(MaybeCheckpoint(e)) && Wrote(e, MaybeCheckpoint(e))
  {
    hide Lineage.Checkpoint, TypedStoreState, TypedBook;
    CheckpointTyped(e.store);
  }

  lemma RememberTyped(e: EngineState, d: Decision)
    requires TypedEngine(e)
    ensures TypedEngine(Remember(e, d)) && Wrote(e, Remember(e, d))
  {
    hide TypedStoreState, TypedBook;
  }

  lemma DecisionTyped(env: Env, e: EngineState, d: Decision)
    requires RealEnv(env) && TypedEngine(e) && TypedDecision(d)
    ensures var (f, written) := CommitDecision(env, e, d);
            && TypedEngine(f) && Wrote(e, f)
            && (written.durable && !f.store.failed ==> TypedDecision(written) && written.reasons == d.reasons)
            && (f.store.failed ==> !written.durable)
  {
    hide Write, TypedEngine, AuthorityOk, ValidName, AssessmentOk, ReasonsOk, Wrote;
    WriteTyped(e, DecisionCommit(d));
  }

  /** The entry of a well-typed decision. */
  lemma EntryTyped(d: Decision, key: Digest)
    requires TypedDecision(d) && IsDigest(key)
    ensures EntryOk(EntryFor(d, key))
  {
    hide AuthorityOk, ValidName, AssessmentOk;
  }

  lemma IndexTyped(env: Env, e: EngineState, d: Decision, key: Digest)
    requires RealEnv(env) && TypedEngine(e) && IsDigest(key) && (d.durable ==> TypedDecision(d))
    ensures TypedEngine(CommitIdempotency(env, e, d, key)) && Wrote(e, CommitIdempotency(env, e, d, key))
  {
    hide Write, TypedEngine, TypedDecision, Wrote, EntryFor, RealEnv, EntryOk, TypedRecord;
    WroteSelf(e);
    if key != ZERO_DIGEST && d.durable && env.fits(EntryFor(d, key)) {
      IndexRecordTyped(env, d, key);
      WriteTyped(e, IdempotencyIndex(EntryFor(d, key)));
    }
  }

  lemma IndexRecordTyped(env: Env, d: Decision, key: Digest)
    requires RealEnv(env) && TypedDecision(d) && IsDigest(key) && env.fits(EntryFor(d, key))
    ensures TypedRecord(IdempotencyIndex(EntryFor(d, key)))
  {
    hide EntryFor, EntryOk, TypedDecision;
    EntryTyped(d, key);
  }

  lemma WroteSelf(e: EngineState)
    ensures Wrote(e, e)
  {}

  lemma WroteOn(e: EngineState, f: EngineState, g: EngineState)
    requires Wrote(e, f) && Wrote(f, g)
    ensures Wrote(e, g)
  {}

  lemma SettlementTyped(env: Env, e: EngineState, d: Decision, key: Digest)
    requires RealEnv(env) && TypedEngine(e) && TypedDecision(d) && IsDigest(key)
    ensures TypedEngine(SettleDurable(env, e, d, key).0) && Wrote(e, SettleDurable(env, e, d, key).0)
  {
    hide CommitDecision, CommitIdempotency, MaybeCheckpoint, Remember, TypedEngine, TypedDecision, RealEnv;
    DecisionTyped(env, e, d);
    var (decided, written) := CommitDecision(env, e, d);
    IndexTyped(env, decided, written, key);
    var indexed := CommitIdempotency(env, decided, written, key);
    CompactionTyped(indexed);
    RememberTyped(MaybeCheckpoint(indexed), written);
  }

  lemma UndurableTyped(env: Env, e: EngineState, d: Decision)
    requires TypedEngine(e)
    ensures TypedEngine(SettleUndurable(env, e, d).0) && Wrote(e, SettleUndurable(env, e, d).0)
  {
    hide Remember, TypedEngine;
    var settled := d.(durable := false);
    RememberTyped(e, settled.(decisionId := env.h.decision(settled)));
  }

  lemma PutTyped(env: Env, e: EngineState, kind: PutKind, r: AttemptRecord, d: Decision, checkpoints: bool)
    requires RealEnv(env) && TypedEngine(e) && TypedAttempt(r) && TypedDecision(d)
    ensures TypedEngine(PutThenSettle(env, e, kind, r, d, checkpoints).0) && Wrote(e, PutThenSettle(env, e, kind, r, d, checkpoints).0)
  {
    hide Write, CommitDecision, MaybeCheckpoint, Remember, TypedEngine, TypedDecision, TypedAttempt, RealEnv;
    WriteTyped(e, AttemptPut(kind, r));
    var put := Write(e, AttemptPut(kind, r));
    DecisionTyped(env, put, d);
    var (decided, written) := CommitDecision(env, put, d);
    CompactionTyped(decided);
    RememberTyped(if checkpoints then MaybeCheckpoint(decided) else decided, written);
  }

  // ---- what decisions are made of ----

  lemma NoAuthorityOk()
    ensures AuthorityOk(NO_AUTHORITY)
  {}

  /** The definitions in force, and where the engine stands. */
  lemma EngineParts(e: EngineState)
    requires TypedEngine(e)
    ensures ValidName(e.options.fabric) && IsIncarnation(e.incarnation) && Long(e.epoch) && Long(e.tick)
    ensures TypedPolicy(e.store.d.policy) && TypedTopology(e.store.d.topology)
    ensures forall r :: r in e.store.d.attempts ==> TypedAttempt(r)
  {
    hide TypedPolicy, TypedTopology, TypedAttempt, TypedMedium, TypedBook;
  }

  lemma DefinedIsNamed(t: Topology, subject: LinkKey)
    requires TypedTopology(t) && Find(t.links, subject).Some?
    ensures Named(subject) && Long(Find(t.links, subject).value.generation)
  {
    hide ValidName;
    assert Find(t.links, subject).value in t.links;
  }

  lemma CurrentAuthorityOk(env: Env, e: EngineState, subject: LinkKey, generation: nat)
    requires RealEnv(env) && TypedEngine(e) && Named(subject) && Long(generation)
    ensures AuthorityOk(CurrentAuthority(env, e, subject, generation))
  {
    hide ValidName, TypedEngine, TypedTopology, TypedPolicy;
    EngineParts(e);
    NoAuthorityOk();
    Generations(e.store.d.policy, e.store.d.topology);
  }

  lemma Generations(p: Policy, t: Topology)
    requires TypedPolicy(p) && TypedTopology(t)
    ensures Long(p.generation) && Long(t.generation)
  {
    hide TopologyFault, ValidPolicy;
  }

  lemma BaseTyped(e: EngineState, subject: LinkKey, generation: nat)
    requires TypedEngine(e) && Named(subject) && Long(generation)
    ensures TypedDecision(BaseDecision(e, subject, generation))
  {
    hide ValidName, TypedEngine;
    EngineParts(e);
    NoAuthorityOk();
  }

  lemma RequestTyped(env: Env, e: EngineState, q: FailoverRequest)
    requires RealEnv(env) && TypedEngine(e) && Named(q.subject) && Long(q.generation)
    ensures TypedDecision(RequestDecision(env, e, q)) && RequestDecision(env, e, q).reasons == []
  {
    hide ValidName, TypedEngine, CurrentAuthority, AuthorityOk, AssessmentOk;
    BaseTyped(e, q.subject, q.generation);
    CurrentAuthorityOk(env, e, q.subject, q.generation);
  }

  lemma ListedOk(codes: seq<nat>)
    requires |codes| <= MAX_REASONS && forall c :: c in codes ==> c < REASON_CODE_COUNT
    ensures ReasonsOk(Listed(codes), |codes|)
  {
    forall r | r in Listed(codes) ensures r.code < REASON_CODE_COUNT && r.detail == [] {
      var i :| 0 <= i < |codes| && Listed(codes)[i] == r;
      assert codes[i] in codes;
    }
  }

  lemma ConcludedTyped(d: Decision, assertion: Assertion, outcome: Outcome, codes: seq<nat>)
    requires TypedDecision(d) && d.reasons == [] && |codes| <= MAX_REASONS && forall c :: c in codes ==> c < REASON_CODE_COUNT
    ensures TypedDecision(Conclude(d, assertion, outcome, codes))
    ensures ReasonsOk(Conclude(d, assertion, outcome, codes).reasons, |codes|)
  {
    hide ValidName, AuthorityOk, AssessmentOk, Listed;
    ListedOk(codes);
    assert [] + Listed(codes) == Listed(codes);
  }

  // ---- a failover request ----

  lemma GateTyped(env: Env, e: EngineState, q: FailoverRequest)
    requires RealEnv(env) && TypedEngine(e) && Named(q.subject) && Long(q.generation)
    ensures var g := FailoverGate(env, e, q); g.Shut? && g.durable ==> TypedDecision(g.decision)
  {
    hide TypedEngine, RequestDecision, ActiveAuthority, Latest, TypedAttempt, Mismatches, Conclude;
    var d := RequestDecision(env, e, q);
    RequestTyped(env, e, q);
    EngineParts(e);
    var latest := Latest(e.store.d.attempts, q.subject, q.generation);
    if latest.Some? {
      LatestIn(e.store.d.attempts, q.subject, q.generation);
      var seen := d.(kind := DecisionKind.Indeterminate, attemptSeq := latest.value.seqno);
      AboutLatest(d, latest.value);
      ConcludedTyped(seen, Observation, Outcome.Indeterminate, [BACKEND_UNKNOWN]);
      ConcludedTyped(seen, Observation, Outcome.Indeterminate, [REVALIDATION_REQUIRED]);
    }
  }

  lemma LatestIn(a: seq<AttemptRecord>, subject: LinkKey, generation: nat)
    requires Latest(a, subject, generation).Some?
    ensures Latest(a, subject, generation).value in a
  {}

  lemma AboutLatest(d: Decision, r: AttemptRecord)
    requires TypedDecision(d) && TypedAttempt(r)
    ensures TypedDecision(d.(kind := DecisionKind.Indeterminate, attemptSeq := r.seqno))
  {
    hide ValidName, AuthorityOk, AssessmentOk, ReasonsOk;
  }

  lemma DeclinedTyped(e: EngineState, q: FailoverRequest, d: Decision, digest: Digest)
    requires TypedEngine(e) && Named(q.subject) && Long(q.generation) && IsDigest(q.key) && IsDigest(digest)
    requires TypedDecision(d) && |d.reasons| <= MAX_ATTEMPT_REASONS
    ensures TypedAttempt(DeclinedAttempt(e, q, d, digest))
  {
    hide ValidName, AuthorityOk, AssessmentOk, TypedEngine;
    EngineParts(e);
    NoAuthorityOk();
  }

  /** A decline: what it records and decides is well typed as far as it is written. */
  lemma DeclineTyped(env: Env, e: EngineState, q: FailoverRequest, d: Decision, digest: Digest)
    requires RealEnv(env) && TypedEngine(e) && Named(q.subject) && Long(q.generation) && IsDigest(q.key) && IsDigest(digest)
    requires CountOf(e.store.d.attempts, q.subject, q.generation) < e.store.d.policy.maxAttempts ==>
               TypedDecision(d) && |d.reasons| <= MAX_ATTEMPT_REASONS
    ensures TypedEngine(Decline(env, e, q, d, digest).0) && Wrote(e, Decline(env, e, q, d, digest).0)
  {
    hide Write, SettleDurable, SettleUndurable, CountOf, DeclinedAttempt, TypedEngine, TypedAttempt, TypedDecision, RealEnv, Named;
    if CountOf(e.store.d.attempts, q.subject, q.generation) < e.store.d.policy.maxAttempts {
      DeclinedTyped(e, q, d, digest);
      var rec := AttemptPut(Create, DeclinedAttempt(e, q, d, digest));
      WriteTyped(e, rec);
      SettlementTyped(env, Write(e, rec), d, q.key);
    } else {
      UndurableTyped(env, e, d.(reasons := d.reasons + [Because(ATTEMPTS_EXHAUSTED)]));
    }
  }

  lemma VerdictReasons(b: Evidence.Book, v: Verdicts.Viewpoint, link: LinkKey, generation: nat)
    ensures var x := Verdicts.EvaluateFailure(b, v, link, generation);
            x.NotEstablished? ==> x.reason < REASON_CODE_COUNT && ReasonsOk([Because(x.reason)] + x.extra, 5)
  {
    hide Verdicts.Counting, Verdicts.CitedOf, Verdicts.Reporters;
  }

  lemma VerdictTyped(b: Evidence.Book, v: Verdicts.Viewpoint, link: LinkKey, generation: nat)
    requires TypedBook(b)
    ensures var x := Verdicts.EvaluateFailure(b, v, link, generation);
            x.Established? ==> ValidName(x.publisher) && IsIncarnation(x.incarnation) && Long(x.seqno) && IsDigest(x.digest)
  {
    hide ValidName, Verdicts.CitedOf, Verdicts.UseOf;
  }

  lemma UnestablishedTyped(env: Env, e: EngineState, q: FailoverRequest, outcome: Outcome, reason: nat, extra: seq<Reason>)
    requires RealEnv(env) && TypedEngine(e) && Named(q.subject) && Long(q.generation) && ReasonsOk([Because(reason)] + extra, 5)
    requires CountOf(e.store.d.attempts, q.subject, q.generation) < e.store.d.policy.maxAttempts
    ensures var d := UnestablishedDecision(env, e, q, outcome, reason, extra); TypedDecision(d) && |d.reasons| <= 5
  {
    hide TypedEngine, RequestDecision, CountOf, ValidName, AuthorityOk, AssessmentOk, TypedPolicy, TypedTopology, TypedAttempt;
    RequestTyped(env, e, q);
    EngineParts(e);
    BudgetIsWord(e.store.d.policy);
    WithReasons(RequestDecision(env, e, q), [Because(reason)] + extra, 5);
  }

  lemma BudgetIsWord(p: Policy)
    requires TypedPolicy(p)
    ensures Word(p.maxAttempts) && p.maxCandidates <= MAX_POLICY_CANDIDATES
  {}

  lemma WithReasons(d: Decision, reasons: seq<Reason>, max: nat)
    requires TypedDecision(d) && ReasonsOk(reasons, max) && max <= MAX_REASONS
    ensures TypedDecision(d.(reasons := reasons))
  {
    hide ValidName, AuthorityOk, AssessmentOk;
  }

  // ---- assessments ----

  /** What resolution says of a candidate is within the ranges of an assessment. */
  predicate TypedResolved(c: Selector.Resolved) {
    && LinkOk(c.candidate) && Long(c.generation) && c.report.confidence <= MAX_CONFIDENCE && Word(c.report.capacity) && Word(c.report.cost)
    && IsDigest(c.evidenceDigest) && Long(c.age)
    && (c.evidencePresent ==> Named(c.candidate))
  }

  lemma ResolvedTyped(e: EngineState, c: Resolution.Candidate)
    requires TypedEngine(e) && LinkOk(c.link) && Long(c.expectedGeneration)
    ensures TypedResolved(Resolution.Resolve(e.book, Viewpoint(e), e.store.d.topology.links, c))
  {
    hide ValidName, TypedEngine, TypedPolicy, TypedTopology, TypedAttempt, TypedStamp, Resolution.ChosenFor, Resolution.Conflicted;
    EngineParts(e);
    EvidenceParts(e);
    if Find(e.store.d.topology.links, c.link).Some? { DefinedIsNamed(e.store.d.topology, c.link); }
  }

  lemma EvidenceParts(e: EngineState)
    requires TypedEngine(e)
    ensures TypedBook(e.book)
  {}

  lemma AssessedTyped(input: Selector.Input, c: Selector.Resolved)
    requires TypedResolved(c)
    ensures AssessmentOk(Selector.Assess(input, c))
    ensures Selector.Assess(input, c).verdict.Eligible? ==> Named(c.candidate)
  {
    hide ValidName;
  }

  lemma SelectionTyped(e: EngineState, q: FailoverRequest, link: LinkDefinition)
    requires TypedEngine(e) && TypedRequest(q)
    ensures forall c :: c in SelectionInput(e, q, link).candidates ==> TypedResolved(c)
    ensures |SelectionInput(e, q, link).candidates| == |q.candidates|
  {
    hide TypedEngine, TypedResolved, Resolution.Resolve, LinkOk;
    var rs := Resolution.ResolveAll(e.book, Viewpoint(e), e.store.d.topology.links, q.candidates);
    forall i | 0 <= i < |rs| ensures TypedResolved(rs[i]) { ResolvedTyped(e, q.candidates[i]); }
    Sorting.SortHolds(rs, ResolvedLess);
    forall c | c in SelectionInput(e, q, link).candidates ensures TypedResolved(c) {
      assert c in multiset(rs);
    }
  }

  lemma AssessmentsTyped(input: Selector.Input)
    requires forall c :: c in input.candidates ==> TypedResolved(c)
    ensures var o := Selector.Select(input);
            && |o.assessments| == |input.candidates|
            && forall a :: a in o.assessments ==> AssessmentOk(a) && (a.verdict.Eligible? ==> Named(a.candidate))
  {
    hide TypedResolved, AssessmentOk, Selector.Assess, Named;
    var o := Selector.Select(input);
    var all := Selector.AssessAll(input, input.candidates);
    Sorting.SortHolds(all, Selector.AssessmentLess);
    forall a | a in o.assessments ensures AssessmentOk(a) && (a.verdict.Eligible? ==> Named(a.candidate)) {
      assert a in multiset(all);
      var i :| 0 <= i < |all| && all[i] == a;
      AssessedTyped(input, input.candidates[i]);
    }
  }

  lemma WithCandidates(d: Decision, candidates: seq<Assessment>, digest: Digest, seqno: nat, id: Digest)
    requires TypedDecision(d) && IsDigest(digest) && IsDigest(id) && Long(seqno)
    requires |candidates| <= MAX_DECISION_CANDIDATES && forall a :: a in candidates ==> AssessmentOk(a)
    ensures TypedDecision(d.(candidates := candidates, evidenceDigest := digest, attemptSeq := seqno, attemptId := id))
  {
    hide ValidName, AuthorityOk, AssessmentOk, ReasonsOk;
  }

  lemma UnselectedTyped(env: Env, e: EngineState, q: FailoverRequest, o: Selector.Selection, digest: Digest)
    requires RealEnv(env) && TypedEngine(e) && Named(q.subject) && Long(q.generation) && IsDigest(digest)
    requires |o.assessments| <= MAX_DECISION_CANDIDATES && forall a :: a in o.assessments ==> AssessmentOk(a)
    requires CountOf(e.store.d.attempts, q.subject, q.generation) < e.store.d.policy.maxAttempts
    ensures var d := UnselectedDecision(env, e, q, o, digest); TypedDecision(d) && |d.reasons| <= 2
  {
    hide TypedEngine, RequestDecision, CountOf, TypedPolicy, TypedTopology, TypedAttempt, AssessmentOk, Named, DecisionOk, Listed;
    RequestTyped(env, e, q);
    EngineParts(e);
    BudgetIsWord(e.store.d.policy);
    var count := CountOf(e.store.d.attempts, q.subject, q.generation);
    var id := env.h.attempt(e.options.fabric, q.subject, q.generation, count + 1);
    WithCandidates(RequestDecision(env, e, q), o.assessments, digest, count + 1, id);
    var d := RequestDecision(env, e, q).(candidates := o.assessments, evidenceDigest := digest, attemptSeq := count + 1, attemptId := id);
    ListedOk([CERTIFIED_INFEASIBLE, NO_ELIGIBLE_REPLACEMENT]);
    ListedOk([CANDIDATE_SET_EMPTY]);
    ListedOk([SELECTION_INDETERMINATE]);
    Reworded(d, UnselectedDecision(env, e, q, o, digest));
  }

  /** Kinds, assertions and outcomes have no range to leave. */
  lemma Reworded(d: Decision, x: Decision)
    requires TypedDecision(d) && ReasonsOk(x.reasons, MAX_REASONS)
    requires x == d.(kind := x.kind, assertion := x.assertion, outcome := x.outcome, reasons := x.reasons, idempotentReplay := x.idempotentReplay)
    ensures TypedDecision(x)
  {
    hide ValidName, AuthorityOk, AssessmentOk, ReasonsOk;
  }

  lemma GrantedAuthorityOk(env: Env, e: EngineState, q: FailoverRequest, chosen: Assessment, v: Verdicts.FailureVerdict)
    requires RealEnv(env) && TypedEngine(e) && Named(q.subject) && Long(q.generation) && AssessmentOk(chosen)
    requires v.Established? && ValidName(v.publisher) && IsIncarnation(v.incarnation) && Long(v.seqno) && IsDigest(v.digest)
    requires Long(CountOf(e.store.d.attempts, q.subject, q.generation) + 1)
    ensures AuthorityOk(GrantedAuthority(env, e, q, chosen, v))
  {
    hide TypedEngine, CurrentAuthority, ValidName, CountOf;
    CurrentAuthorityOk(env, e, q.subject, q.generation);
  }

  lemma GrantTyped(env: Env, e: EngineState, q: FailoverRequest, o: Selector.Selection, chosen: Assessment, v: Verdicts.FailureVerdict)
    requires RealEnv(env) && TypedEngine(e) && Named(q.subject) && Long(q.generation) && AssessmentOk(chosen) && Named(chosen.candidate)
    requires |o.assessments| <= MAX_DECISION_CANDIDATES && forall a :: a in o.assessments ==> AssessmentOk(a)
    requires v.Established? && ValidName(v.publisher) && IsIncarnation(v.incarnation) && Long(v.seqno) && IsDigest(v.digest)
    requires Long(CountOf(e.store.d.attempts, q.subject, q.generation) + 1)
    ensures var d := GrantDecision(env, e, q, o, chosen, v); TypedDecision(d) && ReasonsOk(d.reasons, 2)
  {
    hide TypedEngine, RequestDecision, CountOf, GrantedAuthority, AuthorityOk, ValidName;
    RequestTyped(env, e, q);
    GrantedAuthorityOk(env, e, q, chosen, v);
  }

  lemma GrantedTyped(e: EngineState, q: FailoverRequest, d: Decision)
    requires TypedEngine(e) && Named(q.subject) && Long(q.generation) && IsDigest(q.key)
    requires TypedDecision(d) && d.hasReplacement && ReasonsOk(d.reasons, 2)
    ensures TypedAttempt(GrantedAttempt(e, q, d)) && TypedAttempt(GrantedAttempt(e, q, d).(phase := Authorized))
  {
    hide TypedEngine, Latest, ValidName, AuthorityOk, AssessmentOk, TypedPolicy, TypedTopology, ReasonsOk;
    EngineParts(e);
    var latest := Latest(e.store.d.attempts, q.subject, q.generation);
    if latest.Some? {
      LatestIn(e.store.d.attempts, q.subject, q.generation);
      IdIsDigest(latest.value);
    }
    FewReasons(d.reasons, 2);
  }

  lemma FewReasons(rs: seq<Reason>, n: nat)
    requires ReasonsOk(rs, n) && n <= MAX_ATTEMPT_REASONS
    ensures ReasonsOk(rs, MAX_ATTEMPT_REASONS)
  {}

  lemma IdIsDigest(r: AttemptRecord)
    requires TypedAttempt(r)
    ensures IsDigest(r.attemptId)
  {}

  lemma GrantWritesTyped(env: Env, e: EngineState, q: FailoverRequest, d: Decision)
    requires RealEnv(env) && TypedEngine(e) && Named(q.subject) && Long(q.generation) && IsDigest(q.key)
    requires TypedDecision(d) && d.hasReplacement && ReasonsOk(d.reasons, 2)
    ensures TypedEngine(GrantAuthority(env, e, q, d).0) && Wrote(e, GrantAuthority(env, e, q, d).0)
  {
    hide Write, SettleDurable, GrantedAttempt, TypedEngine, TypedDecision, TypedAttempt, RealEnv, Named, ReasonsOk;
    var r := GrantedAttempt(e, q, d);
    GrantedTyped(e, q, d);
    WriteTyped(e, AttemptPut(Create, r));
    var staged := Write(e, AttemptPut(Create, r));
    WriteTyped(staged, AttemptPut(Update, r.(phase := Authorized)));
    SettlementTyped(env, Write(staged, AttemptPut(Update, r.(phase := Authorized))), d, q.key);
  }

  lemma GrantableTyped(env: Env, e: EngineState, q: FailoverRequest, input: Selector.Input, v: Verdicts.FailureVerdict)
    requires RealEnv(env) && TypedEngine(e) && Named(q.subject) && Long(q.generation) && IsDigest(q.key)
    requires |input.candidates| <= MAX_DECISION_CANDIDATES && forall c :: c in input.candidates ==> TypedResolved(c)
    requires v.Established? && ValidName(v.publisher) && IsIncarnation(v.incarnation) && Long(v.seqno) && IsDigest(v.digest)
    ensures TypedEngine(Grantable(env, e, q, input, v).0) && Wrote(e, Grantable(env, e, q, input, v).0)
  {
    hide Decline, SettleUndurable, GrantAuthority, Selector.Select, Selector.NamesInput, CountOf, Selector.Better, GrantDecision, UnselectedDecision,
      RequestDecision, TypedEngine, RealEnv, Named, TypedResolved, AssessmentOk, DecisionOk, ValidName, ReasonsOk;
    var o := Selector.Select(input);
    AssessmentsTyped(input);
    WroteSelf(e);
    if CountOf(e.store.d.attempts, q.subject, q.generation) < e.store.d.policy.maxAttempts { UnselectedTyped(env, e, q, o, v.digest); }
    DeclineTyped(env, e, q, UnselectedDecision(env, e, q, o, v.digest), v.digest);
    UndurableTyped(env, e, Conclude(RequestDecision(env, e, q).(candidates := o.assessments, evidenceDigest := v.digest, kind := Refuse),
                                    Eligibility, Outcome.Refused, [ATTEMPTS_EXHAUSTED]));
    if Selector.Acceptable(input, o) && o.status.Selected? && CountOf(e.store.d.attempts, q.subject, q.generation) + 1 < U64_LIMIT {
      Selector.AcceptableIndex(input, o);
      var chosen := o.assessments[o.selectedIndex.value];
      GrantTyped(env, e, q, o, chosen, v);
      GrantHasReplacement(env, e, q, o, chosen, v);
      GrantWritesTyped(env, e, q, GrantDecision(env, e, q, o, chosen, v));
    }
  }

  lemma GrantHasReplacement(env: Env, e: EngineState, q: FailoverRequest, o: Selector.Selection, chosen: Assessment, v: Verdicts.FailureVerdict)
    requires v.Established?
    ensures GrantDecision(env, e, q, o, chosen, v).hasReplacement
  {
    hide CountOf;
  }

  lemma BoundTyped(env: Env, e: EngineState, q: FailoverRequest, link: LinkDefinition)
    requires RealEnv(env) && TypedEngine(e) && TypedRequest(q) && Named(q.subject) && Long(q.generation) && RequestFault(e, q).None?
    ensures TypedEngine(DecideBound(env, e, q, link).0) && Wrote(e, DecideBound(env, e, q, link).0)
  {
    hide FailoverGate, SettleDurable, SettleUndurable, Decline, Grantable, SelectionInput, Verdicts.EvaluateFailure, UnestablishedDecision, CountOf,
      TypedEngine, TypedDecision, RealEnv, Named, TypedResolved, ValidName, ReasonsOk, CandidatesFault, TypedPolicy, TypedTopology, TypedAttempt;
    var gate := FailoverGate(env, e, q);
    GateTyped(env, e, q);
    if gate.Shut? {
      if gate.durable { SettlementTyped(env, e, gate.decision, q.key); } else { UndurableTyped(env, e, gate.decision); }
    } else {
      EvidenceParts(e);
      EngineParts(e);
      BudgetIsWord(e.store.d.policy);
      VerdictTyped(e.book, Viewpoint(e), q.subject, q.generation);
      VerdictReasons(e.book, Viewpoint(e), q.subject, q.generation);
      match Verdicts.EvaluateFailure(e.book, Viewpoint(e), q.subject, q.generation)
      case NotEstablished(outcome, reason, extra) =>
        if CountOf(e.store.d.attempts, q.subject, q.generation) < e.store.d.policy.maxAttempts {
          UnestablishedTyped(env, e, q, outcome, reason, extra);
        }
        DeclineTyped(env, e, q, UnestablishedDecision(env, e, q, outcome, reason, extra), ZERO_DIGEST);
      case Established(p, i, n, digest) =>
        SelectionTyped(e, q, link);
        GrantableTyped(env, e, q, SelectionInput(e, q, link), Verdicts.Established(p, i, n, digest));
    }
  }

  /** One later tick. */
  lemma TickTyped(e: EngineState)
    requires TypedEngine(e) && Long(e.tick + 1)
    ensures TypedEngine(e.(tick := e.tick + 1))
  {
    hide TypedStoreState, TypedBook;
  }

  /** After a call: well typed, in the same boot, at most one tick later. */
  predicate Served(e: EngineState, f: EngineState) {
    TypedEngine(f) && f.options == e.options && f.tick <= e.tick + 1
  }

  lemma FailoverTyped(env: Env, e: EngineState, q: FailoverRequest)
    requires RealEnv(env) && TypedEngine(e) && TypedRequest(q) && Long(e.tick + 1)
    ensures Served(e, RequestFailover(env, e, q).0)
  {
    hide DecideBound, RequestFault, FindEntry, ReplayDecision, TypedEngine, TypedRequest, RealEnv, Named, TypedPolicy, TypedTopology, TypedAttempt;
    TickTyped(e);
    var t := e.(tick := e.tick + 1);
    var link := Find(t.store.d.topology.links, q.subject);
    if link.Some? && link.value.generation == q.generation && RequestFault(t, q).None? {
      EngineParts(t);
      DefinedIsNamed(t.store.d.topology, q.subject);
      BoundTyped(env, t, q, link.value);
    }
  }

  // ---- recorded attempts ----

  lemma AboutTyped(e: EngineState, r: AttemptRecord, kind: DecisionKind, assertion: Assertion)
    requires TypedEngine(e) && TypedAttempt(r)
    ensures TypedDecision(DecisionAbout(e, r, kind, assertion)) && DecisionAbout(e, r, kind, assertion).reasons == []
  {
    hide ValidName, TypedEngine, AuthorityOk, TypedPolicy, TypedTopology;
    EngineParts(e);
    NamedIsNotEmpty(r.subject);
    NamedIsNotEmpty(r.replacement);
  }

  lemma NamedIsNotEmpty(k: LinkKey)
    ensures Named(k) ==> !k.Empty()
    ensures NO_LINK.Empty() && LinkOk(NO_LINK)
  {}

  /** An attempt whose phase, reasons, applier and verdict changed. */
  lemma MovedTyped(r: AttemptRecord, x: AttemptRecord)
    requires TypedAttempt(r) && IsIncarnation(x.applierIncarnation) && AuthorityOk(x.authority) && IsIncarnation(x.coordinator)
    requires x == r.(phase := x.phase, reasons := x.reasons, applierIncarnation := x.applierIncarnation, authority := x.authority,
                     coordinator := x.coordinator, revalidated := x.revalidated, revalidation := x.revalidation)
    requires ReasonsOk(x.reasons, MAX_ATTEMPT_REASONS)
    ensures TypedAttempt(x)
  {
    hide ValidName, AuthorityOk, ReasonsOk;
  }

  lemma AttemptParts(r: AttemptRecord)
    requires TypedAttempt(r)
    ensures IsIncarnation(r.applierIncarnation) && AuthorityOk(r.authority) && IsIncarnation(r.coordinator) && ReasonsOk(r.reasons, MAX_ATTEMPT_REASONS)
  {
    hide ValidName, AuthorityOk, ReasonsOk;
  }

  ghost predicate TypedPlan(plan: Plan) {
    match plan
    case Put(_, r, d, _) => TypedAttempt(r) && TypedDecision(d)
    case CompleteEffect(r, d) => TypedAttempt(r) && TypedDecision(d)
    case Revert(was, r, d, key) => TypedAttempt(was) && TypedAttempt(r) && TypedDecision(d) && IsDigest(key)
    case _ => true
  }

  lemma FoundTyped(e: EngineState, subject: LinkKey, seqno: nat)
    requires TypedEngine(e) && Lookup(e.store.d.attempts, subject, seqno).Some?
    ensures TypedAttempt(Lookup(e.store.d.attempts, subject, seqno).value)
  {
    hide TypedEngine, TypedAttempt, TypedPolicy, TypedTopology;
    EngineParts(e);
  }

  lemma ApplicationTyped(e: EngineState, report: ApplicationReport)
    requires TypedEngine(e) && IsIncarnation(report.applier)
    ensures TypedPlan(PlanApplication(e, report))
  {
    hide TypedEngine, TypedAttempt, TypedDecision, DecisionAbout, Conclude, AddReason, Lookup, AuthorityOk, ReasonsOk;
    var found := Lookup(e.store.d.attempts, report.subject, report.attemptSeq);
    if found.Some? {
      var r := found.value;
      FoundTyped(e, report.subject, report.attemptSeq);
      AttemptParts(r);
      var d := DecisionAbout(e, r, Acknowledge, Acknowledgement);
      AboutTyped(e, r, Acknowledge, Acknowledgement);
      ReasonAdded(r.reasons, Explained(BACKEND_REJECTED, report.detail));
      ReasonAdded(r.reasons, Because(ACKNOWLEDGEMENT_NOT_EFFECT));
      MovedTyped(r, WithApplication(r, report, e.store.d.policy.requireVerifiedEffect));
      ConcludedTyped(d, Acknowledgement, Outcome.Ok, [ACKNOWLEDGEMENT_NOT_EFFECT]);
      ConcludedTyped(d, Acknowledgement, Outcome.Refused, [BACKEND_REJECTED]);
    }
  }

  lemma VerificationTyped(e: EngineState, report: VerificationReport)
    requires TypedEngine(e)
    ensures TypedPlan(PlanVerification(e, report))
  {
    hide TypedEngine, TypedAttempt, TypedDecision, DecisionAbout, Conclude, AddReason, Lookup, AuthorityOk, ReasonsOk;
    var found := Lookup(e.store.d.attempts, report.subject, report.attemptSeq);
    if found.Some? {
      var r := found.value;
      FoundTyped(e, report.subject, report.attemptSeq);
      AttemptParts(r);
      var d := DecisionAbout(e, r, DecisionKind.Verify, Nothing);
      AboutTyped(e, r, DecisionKind.Verify, Nothing);
      ReasonAdded(r.reasons, Explained(EFFECT_UNVERIFIED, report.detail));
      ReasonAdded(r.reasons, Explained(EFFECT_VERIFIED, report.detail));
      MovedTyped(r, WithoutEffect(r, report));
      MovedTyped(r, WithEffect(r, report));
      ConcludedTyped(d, Acknowledgement, Outcome.Indeterminate, [EFFECT_UNVERIFIED]);
      ConcludedTyped(d, VerifiedEffect, Outcome.Ok, [EFFECT_VERIFIED]);
    }
  }

  lemma RollbackTyped(env: Env, e: EngineState, q: RollbackRequest)
    requires TypedEngine(e) && IsDigest(q.key)
    ensures TypedPlan(PlanRollback(env, e, q))
    ensures PlanRollback(env, e, q).Revert? ==> |PlanRollback(env, e, q).decision.reasons| <= 2
  {
    hide TypedEngine, TypedAttempt, TypedDecision, DecisionAbout, Conclude, AddReason, Lookup, AuthorityOk, FindEntry, Mismatches, CurrentAuthority;
    var found := Lookup(e.store.d.attempts, q.subject, q.attemptSeq);
    if found.Some? {
      var r := found.value;
      FoundTyped(e, q.subject, q.attemptSeq);
      AttemptParts(r);
      var d := DecisionAbout(e, r, DecisionKind.Rollback, Nothing);
      AboutTyped(e, r, DecisionKind.Rollback, Nothing);
      ReasonAdded(r.reasons, Explained(ROLLBACK_REQUESTED, q.rationale));
      MovedTyped(r, WithRollback(r, q.rationale));
      ConcludedTyped(d, Authorization, Outcome.Ok, [ROLLBACK_COMPLETED, RESTORE_REQUIRES_NEW_GENERATION]);
    }
  }

  lemma ReboundOk(env: Env, e: EngineState, a: AuthorityVector)
    requires RealEnv(env) && TypedEngine(e) && AuthorityOk(a)
    ensures AuthorityOk(Rebound(env, e, a))
  {
    hide ValidName, TypedEngine, TypedPolicy, TypedTopology, TypedAttempt;
    EngineParts(e);
    Generations(e.store.d.policy, e.store.d.topology);
  }

  lemma VerdictMoves(env: Env, e: EngineState, r: AttemptRecord, verdict: Revalidation)
    requires RealEnv(env) && TypedEngine(e) && TypedAttempt(r)
    ensures TypedAttempt(WithVerdict(env, e, r, verdict))
  {
    hide TypedEngine, TypedAttempt, AddReason, AuthorityOk, ReasonsOk, Rebound, RealEnv, TypedPolicy, TypedTopology;
    AttemptParts(r);
    EngineParts(e);
    ReboundOk(env, e, r.authority);
    ReasonAdded(r.reasons, Because(FENCED));
    ReasonAdded(r.reasons, Because(EFFECT_VERIFIED));
    ReasonAdded(r.reasons, Because(BACKEND_UNKNOWN));
    MovedTyped(r, WithVerdict(env, e, r, verdict));
  }

  lemma Reauthorized(d: Decision, a: AuthorityVector)
    requires TypedDecision(d) && AuthorityOk(a)
    ensures TypedDecision(d.(authority := a))
  {
    hide ValidName, AuthorityOk, AssessmentOk, ReasonsOk;
  }

  lemma VerdictDecides(env: Env, e: EngineState, r: AttemptRecord, d: Decision, verdict: Revalidation)
    requires RealEnv(env) && TypedEngine(e) && TypedAttempt(r) && TypedDecision(d) && d.reasons == []
    ensures TypedDecision(RevalidationDecision(env, e, r, d, verdict))
  {
    hide TypedEngine, TypedAttempt, TypedDecision, Conclude, AuthorityOk, ReasonsOk, Rebound, RealEnv;
    AttemptParts(r);
    ReboundOk(env, e, r.authority);
    var kept := [LINEAGE_PRESERVED, DYNAMIC_STATE_NOT_RESTORED];
    match verdict
    case NotApplied => ConcludedTyped(d, Observation, Outcome.Ok, [FENCED] + kept);
    case Unknown => ConcludedTyped(d, Observation, Outcome.Indeterminate, [BACKEND_UNKNOWN] + kept);
    case Applied =>
      var codes := [EFFECT_VERIFIED] +
        (if r.authority.policyGeneration != e.store.d.policy.generation then [POLICY_GENERATION_MISMATCH] else []) +
        (if r.authority.topologyGeneration != e.store.d.topology.generation then [TOPOLOGY_GENERATION_MISMATCH] else []) + kept;
      ConcludedTyped(d, Authorization, Outcome.Ok, codes);
      Reauthorized(Conclude(d, Authorization, Outcome.Ok, codes), Rebound(env, e, r.authority));
  }

  lemma ResolutionTyped(env: Env, e: EngineState, q: RevalidationRequest)
    requires RealEnv(env) && TypedEngine(e)
    ensures TypedPlan(PlanResolution(env, e, q))
  {
    hide TypedEngine, TypedAttempt, TypedDecision, DecisionAbout, WithVerdict, RevalidationDecision, Lookup, Conclude, RealEnv;
    var found := Lookup(e.store.d.attempts, q.subject, q.attemptSeq);
    if found.Some? {
      var r := found.value;
      FoundTyped(e, q.subject, q.attemptSeq);
      AboutTyped(e, r, DecisionKind.Revalidate, Observation);
      VerdictMoves(env, e, r, q.verdict);
      VerdictDecides(env, e, r, DecisionAbout(e, r, DecisionKind.Revalidate, Observation), q.verdict);
    }
  }

  lemma FenceRecordTyped(e: EngineState, kind: FenceKind, r: AttemptRecord)
    requires TypedEngine(e) && TypedAttempt(r)
    ensures TypedRecord(Protocol.Fence(e, kind, r))
  {
    hide TypedEngine, TypedAttempt, FenceOk, TypedPolicy, TypedTopology;
    EngineParts(e);
    FenceTyped(kind, r, e.epoch, e.incarnation);
  }

  lemma RevertTyped(env: Env, e: EngineState, was: AttemptRecord, r: AttemptRecord, d: Decision, key: Digest)
    requires RealEnv(env) && TypedEngine(e) && TypedAttempt(was) && TypedAttempt(r) && TypedDecision(d) && IsDigest(key)
    ensures TypedEngine(RevertAuthority(env, e, was, r, d, key).0) && Wrote(e, RevertAuthority(env, e, was, r, d, key).0)
  {
    hide Write, CommitDecision, CommitIdempotency, Remember, TypedEngine, TypedDecision, TypedAttempt, RealEnv, FenceOk;
    WriteTyped(e, AttemptPut(PutKind.Rollback, r));
    var put := Write(e, AttemptPut(PutKind.Rollback, r));
    FenceRecordTyped(e, RollbackRevoked, was);
    WriteTyped(put, Protocol.Fence(e, RollbackRevoked, was));
    var fenced := Write(put, Protocol.Fence(e, RollbackRevoked, was));
    DecisionTyped(env, fenced, d);
    var (decided, written) := CommitDecision(env, fenced, d);
    IndexTyped(env, decided, written, key);
    RememberTyped(CommitIdempotency(env, decided, written, key), written);
  }

  lemma ExecuteTyped(env: Env, e: EngineState, plan: Plan)
    requires RealEnv(env) && TypedEngine(e) && TypedPlan(plan)
    ensures TypedEngine(Execute(env, e, plan).0) && Wrote(e, Execute(env, e, plan).0)
  {
    hide Write, PutThenSettle, RevertAuthority, SettleUndurable, TypedEngine, TypedDecision, TypedAttempt, RealEnv;
    match plan
    case Reject(_, _) =>
    case Repeat(_) =>
    case Report(d) => UndurableTyped(env, e, d);
    case Put(kind, r, d, checkpoints) => PutTyped(env, e, kind, r, d, checkpoints);
    case CompleteEffect(r, d) =>
      WriteTyped(e, AttemptPut(Update, r));
      CommittedTyped(r);
      PutTyped(env, Write(e, AttemptPut(Update, r)), Completion, r.(phase := Phase.Committed), d, true);
    case Revert(was, r, d, key) => RevertTyped(env, e, was, r, d, key);
  }

  lemma CommittedTyped(r: AttemptRecord)
    requires TypedAttempt(r)
    ensures TypedAttempt(r.(phase := Phase.Committed))
  {
    hide ValidName, AuthorityOk, ReasonsOk;
  }

  // ---- definitions ----

  lemma RevokedTyped(r: AttemptRecord)
    requires TypedAttempt(r)
    ensures TypedAttempt(Revoked(r))
  {
    hide TypedAttempt, AddReason, AuthorityOk, ReasonsOk;
    AttemptParts(r);
    ReasonAdded(r.reasons, Because(FENCED));
    MovedTyped(r, Revoked(r));
  }

  lemma {:induction false} RevokeTyped(e: EngineState, kind: FenceKind, rest: seq<AttemptRecord>)
    requires TypedEngine(e) && forall r :: r in rest ==> TypedAttempt(r)
    ensures TypedEngine(RevokeAll(e, kind, rest)) && Wrote(e, RevokeAll(e, kind, rest))
    decreases |rest|
  {
    hide Write, TypedEngine, TypedAttempt, Revoked, FenceOk;
    WroteSelf(e);
    if rest != [] && !e.store.failed {
      var r := rest[0];
      if HoldsAuthority(r.phase) {
        RevokedTyped(r);
        WriteTyped(e, AttemptPut(Update, Revoked(r)));
        var put := Write(e, AttemptPut(Update, Revoked(r)));
        FenceRecordTyped(e, kind, r);
        FenceOfSame(e, put, kind, r);
        WriteTyped(put, Protocol.Fence(put, kind, r));
        RevokeTyped(RevokeOne(e, kind, r), kind, rest[1..]);
      } else {
        RevokeTyped(e, kind, rest[1..]);
      }
    }
  }

  lemma FenceOfSame(e: EngineState, f: EngineState, kind: FenceKind, r: AttemptRecord)
    requires Wrote(e, f)
    ensures Protocol.Fence(e, kind, r) == Protocol.Fence(f, kind, r)
  {}

  lemma InstallTyped(e: EngineState, rec: Record, kind: FenceKind)
    requires TypedEngine(e) && TypedRecord(rec)
    ensures TypedEngine(Install(e, rec, kind).0) && Wrote(e, Install(e, rec, kind).0)
  {
    hide Write, RevokeAll, TypedEngine, TypedRecord, TypedAttempt, TypedPolicy, TypedTopology;
    WriteTyped(e, rec);
    var installed := Write(e, rec);
    EngineParts(installed);
    RevokeTyped(installed, kind, installed.store.d.attempts);
  }

  lemma CanonicalTyped(t: Topology)
    requires Long(t.generation) && (forall d :: d in t.links ==> DefinitionOk(d)) && TopologyFault(Canonicalised(t)).None?
    ensures TypedTopology(Canonicalised(t))
  {
    hide DefinitionOk;
    Sorting.SortHolds(t.links, DefinitionLess);
    forall d | d in Canonicalised(t).links ensures DefinitionOk(d) {
      assert d in multiset(Canonicalised(t).links);
    }
  }

  // ---- observations ----

  lemma ObservedTyped(env: Env, b: Evidence.Book, o: Evidence.Observation, receipt: Evidence.Receipt, limits: Evidence.EvidenceLimits)
    requires RealEnv(env) && TypedBook(b) && TypedStamp(Evidence.StampOf(o)) && (o.OfCandidate? ==> TypedReplacement(o.replacement))
    ensures TypedBook(Evidence.Observe(b, env.h, o, receipt, limits).0)
  {
    hide TypedStamp, TypedReplacement, Evidence.Admit, Evidence.RetainFailure, Evidence.RetainReplacement, TypedBook;
    AdmittedTyped(b, Evidence.StampOf(o), receipt.tick, limits);
    var (admitted, status) := Evidence.Admit(b, Evidence.StampOf(o), receipt.tick, limits);
    if status.Done? {
      Evidence.Admitted(b, Evidence.StampOf(o), receipt.tick, limits);
      match o
      case OfSubject(r) => FailureRetained(admitted, r, env.h.failure(r), receipt, limits);
      case OfCandidate(r) => ReplacementRetained(admitted, r, env.h.replacement(r), receipt, limits);
    }
  }

  lemma AdmittedTyped(b: Evidence.Book, stamp: Stamp, tick: nat, limits: Evidence.EvidenceLimits)
    requires TypedBook(b)
    ensures TypedBook(Evidence.Admit(b, stamp, tick, limits).0)
  {
    hide TypedStamp, TypedReplacement, Evidence.Admit;
    Evidence.AdmitRestricts(b, stamp, tick, limits);
  }

  lemma FailureRetained(b: Evidence.Book, r: FailureReport, digest: Digest, receipt: Evidence.Receipt, limits: Evidence.EvidenceLimits)
    requires TypedBook(b) && TypedStamp(r.stamp) && IsDigest(digest) && r.stamp.publisher in b.publishers
    ensures TypedBook(Evidence.RetainFailure(b, r, digest, receipt, limits).0)
  {
    hide TypedStamp, TypedReplacement;
  }

  lemma ReplacementRetained(b: Evidence.Book, r: ReplacementReport, digest: Digest, receipt: Evidence.Receipt, limits: Evidence.EvidenceLimits)
    requires TypedBook(b) && TypedReplacement(r) && IsDigest(digest) && r.stamp.publisher in b.publishers
    ensures TypedBook(Evidence.RetainReplacement(b, r, digest, receipt, limits).0)
  {
    hide TypedStamp, TypedReplacement;
  }

  lemma PublishTyped(env: Env, e: EngineState, o: Evidence.Observation)
    requires RealEnv(env) && TypedEngine(e) && TypedCall(Observing(o)) && Long(e.tick + 1)
    ensures Served(e, Publish(env, e, o).0)
  {
    hide Evidence.Observe, Evidence.ShapeFault, TypedStoreState, TypedBook, TypedStamp, TypedReplacement, RealEnv;
    var receipt := Evidence.Receipt(e.tick + 1, e.epoch, e.incarnation);
    ObservedTyped(env, e.book, o, receipt, e.options.limits.evidence);
  }

  // ---- entries ----

  /** The entry of a well-typed decision with a few reasons is one that the index takes. */
  lemma ShortIsTaken(env: Env, e: EngineState, d: Decision, key: Digest)
    requires RealEnv(env) && TypedEngine(e) && TypedDecision(d) && |d.reasons| <= 18 && IsDigest(key)
    ensures var written := CommitDecision(env, e, d).1; written.durable ==> env.fits(EntryFor(written, key))
  {
    hide CommitDecision, TypedEngine, TypedDecision, EntryOk, PutEntry;
    DecisionTyped(env, e, d);
    var (f, written) := CommitDecision(env, e, d);
    if written.durable {
      EntryTyped(written, key);
      ShortEntriesFit(EntryFor(written, key));
    }
  }

  /** What a grant decides is well typed and has two reasons. */
  lemma GrantIsTyped(env: Env, t: EngineState, q: FailoverRequest)
    requires RealEnv(env) && TypedEngine(t) && TypedRequest(q) && Grants.GrantConditions(env, t, q)
    ensures Named(q.subject) && Long(q.generation)
    ensures var v := Verdicts.EvaluateFailure(t.book, Viewpoint(t), q.subject, q.generation);
            var o := Selector.Select(SelectionInput(t, q, Find(t.store.d.topology.links, q.subject).value));
            && o.selectedIndex.Some? && o.selectedIndex.value < |o.assessments|
            && var d := GrantDecision(env, t, q, o, o.assessments[o.selectedIndex.value], v);
               TypedDecision(d) && d.hasReplacement && ReasonsOk(d.reasons, 2)
  {
    hide TypedEngine, TypedDecision, RealEnv, TypedResolved, TypedPolicy, TypedTopology, TypedAttempt, ValidName, ReasonsOk, AssessmentOk, RequestFault,
      Gate.WellFormed, Gate.MalformedAnswer, Gate.Passes, CountOf, Selector.Select, SelectionInput, Verdicts.EvaluateFailure, GrantDecision, Named,
      Selector.Maximal;
    EngineParts(t);
    EvidenceParts(t);
    DefinedIsNamed(t.store.d.topology, q.subject);
    BudgetIsWord(t.store.d.policy);
    VerdictTyped(t.book, Viewpoint(t), q.subject, q.generation);
    var link := Find(t.store.d.topology.links, q.subject).value;
    var input := SelectionInput(t, q, link);
    var v := Verdicts.EvaluateFailure(t.book, Viewpoint(t), q.subject, q.generation);
    SelectionTyped(t, q, link);
    AssessmentsTyped(input);
    Gate.FormIsChecked(t, q);
    RequestIsSmall(t, q);
    ChosenIsEligible(input);
    var o := Selector.Select(input);
    var chosen := o.assessments[o.selectedIndex.value];
    GrantTyped(env, t, q, o, chosen, v);
    GrantHasReplacement(env, t, q, o, chosen, v);
  }

  lemma RequestIsSmall(t: EngineState, q: FailoverRequest)
    requires RequestFault(t, q).None?
    ensures |q.candidates| <= t.store.d.policy.maxCandidates
  {
    hide CandidatesFault;
  }

  lemma ChosenIsEligible(input: Selector.Input)
    requires Selector.Select(input).status.Selected?
    ensures var o := Selector.Select(input);
            o.selectedIndex.Some? && o.selectedIndex.value < |o.assessments| && o.assessments[o.selectedIndex.value].verdict.Eligible?
  {
    hide Selector.Canonical, Selector.Count;
  }

  // ---- any call ----

  lemma CloseTyped(e: EngineState)
    requires TypedEngine(e)
    ensures Served(e, Close(e).0)
  {
    hide Commit, Lineage.Checkpoint, TypedStoreState, TypedBook;
    var mark := ShutdownMark(e.epoch, e.incarnation, e.store.d.lastSeq);
    ShutdownTyped(mark);
    CommitTyped(e.store, mark);
    CheckpointTyped(Commit(e.store, mark));
  }

  lemma ShutdownTyped(mark: Record)
    requires mark.ShutdownMark? && IsIncarnation(mark.coordinator)
    ensures TypedRecord(mark)
  {}

  lemma DefinitionCallTyped(env: Env, e: EngineState, call: Call)
    requires RealEnv(env) && TypedEngine(e) && TypedCall(call) && (call.SettingPolicy? || call.SettingTopology?)
    ensures Served(e, Perform(env, e, call).0)
  {
    hide Install, TypedEngine, PolicyOk, DefinitionOk, TopologyFault, Canonicalised, ValidPolicy;
    match call
    case SettingPolicy(p) =>
      if ValidPolicy(p) { InstallTyped(e, PolicyCommit(p), PolicyChanged); }
    case SettingTopology(t) =>
      if TopologyFault(Canonicalised(t)).None? {
        CanonicalTyped(t);
        InstallTyped(e, TopologyCommit(Canonicalised(t)), TopologyChanged);
      }
  }

  lemma RecordedCallTyped(env: Env, e: EngineState, call: Call)
    requires RealEnv(env) && TypedEngine(e) && TypedCall(call) && Long(e.tick + 1)
    requires call.Applying? || call.Verifying? || call.RollingBack? || call.Resolving?
    ensures Served(e, Perform(env, e, call).0)
  {
    hide Execute, PlanApplication, PlanVerification, PlanRollback, PlanResolution, TypedEngine, TypedPlan, RealEnv;
    TickTyped(e);
    var t := e.(tick := e.tick + 1);
    match call
    case Applying(r) => ApplicationTyped(t, r); ExecuteTyped(env, t, PlanApplication(t, r));
    case Verifying(r) => VerificationTyped(t, r); ExecuteTyped(env, t, PlanVerification(t, r));
    case RollingBack(q) => RollbackTyped(env, t, q); ExecuteTyped(env, t, PlanRollback(env, t, q));
    case Resolving(q) => ResolutionTyped(env, t, q); ExecuteTyped(env, t, PlanResolution(env, t, q));
  }

  /** Any call with arguments in their ranges, however its writes end. */
  lemma CallTyped(env: Env, e: EngineState, call: Call)
    requires RealEnv(env) && TypedEngine(e) && TypedCall(call) && Long(e.tick + 1)
    ensures Served(e, Perform(env, e, call).0)
  {
    hide Publish, SetPolicy, SetTopology, RequestFailover, RecordApplication, RecordVerification, RequestRollback, ResolveInterrupted, TakeCheckpoint,
      Close, TypedEngine, RealEnv, PolicyOk, DefinitionOk, TypedRequest, TypedStamp, TypedReplacement;
    match call
    case Observing(o) => PublishTyped(env, e, o);
    case SettingPolicy(_) => DefinitionCallTyped(env, e, call);
    case SettingTopology(_) => DefinitionCallTyped(env, e, call);
    case Requesting(q) => FailoverTyped(env, e, q);
    case Checkpointing => CompactionTyped(e);
    case Closing => CloseTyped(e);
    case _ => RecordedCallTyped(env, e, call);
  }
}
