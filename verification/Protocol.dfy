/** The authority protocol: every public call of the engine as a function from state to state and reply. */
module Protocol {
  import opened Basics
  import opened ByteBits
  import opened Reasons
  import opened Records
  import opened Sorting
  import Lineage
  import Evidence
  import Verdicts
  import Resolution
  import Selector

  type DurableState = Lineage.DurableState
  type StoreState = Lineage.StoreState

  datatype EngineLimits = EngineLimits(
    evidence: Evidence.EvidenceLimits,
    store: Lineage.Limits,
    maxDecisions: nat,
    maxDirectives: nat,
    maxCandidates: nat)

  datatype Options = Options(
    fabric: Name,
    policy: Policy,
    topology: Topology,
    limits: EngineLimits,
    snapshotEvery: nat,
    enableSnapshot: bool)

  /** The digests, and whether an index entry's encoding fits the bound under which it is indexed. */
  datatype Env = Env(h: Hashes, fits: IdempotencyEntry -> bool)

  datatype EngineState = EngineState(
    options: Options,
    store: StoreState,
    incarnation: Incarnation,
    epoch: nat,
    tick: nat,
    decisions: seq<Decision>,
    book: Evidence.Book,
    closed: bool,
    storeFailed: bool)

  datatype Reply = Done | Failed(outcome: Outcome, code: nat) | Decided(decision: Decision)

  // ---- requests ----

  datatype Expectation = Expectation(
    epoch: Option<nat>,
    coordinator: Option<Incarnation>,
    topologyGeneration: Option<nat>,
    policyGeneration: Option<nat>,
    subjectGeneration: Option<nat>,
    policyDigest: Option<Digest>,
    topologyDigest: Option<Digest>)

  datatype FailoverRequest = FailoverRequest(
    subject: LinkKey,
    generation: nat,
    candidates: seq<Resolution.Candidate>,
    expected: Expectation,
    key: Digest)

  datatype RollbackRequest = RollbackRequest(
    subject: LinkKey,
    generation: nat,
    attemptSeq: nat,
    expected: Expectation,
    key: Digest,
    rationale: seq<byte>)

  datatype RevalidationRequest = RevalidationRequest(
    subject: LinkKey,
    generation: nat,
    attemptSeq: nat,
    verdict: Revalidation,
    observer: Incarnation,
    observerEpoch: nat)

  datatype ApplicationReport = ApplicationReport(
    subject: LinkKey,
    generation: nat,
    attemptSeq: nat,
    attemptId: Digest,
    applier: Incarnation,
    accepted: bool,
    detail: seq<byte>)

  datatype VerificationReport = VerificationReport(
    subject: LinkKey,
    generation: nat,
    attemptSeq: nat,
    attemptId: Digest,
    effectObserved: bool,
    detail: seq<byte>)

  // ---- shared pieces ----

  function Viewpoint(e: EngineState): Verdicts.Viewpoint {
    Verdicts.Viewpoint(e.incarnation, e.tick, e.store.d.policy, e.store.d.topology.generation)
  }

  function CurrentAuthority(env: Env, e: EngineState, subject: LinkKey, generation: nat): AuthorityVector {
    NO_AUTHORITY.(
      fabric := e.options.fabric, subject := subject, subjectGeneration := generation,
      topologyGeneration := e.store.d.topology.generation, topologyDigest := env.h.topology(e.store.d.topology),
      policyGeneration := e.store.d.policy.generation, policyDigest := env.h.policy(e.store.d.policy),
      epoch := e.epoch, coordinator := e.incarnation)
  }

  function MismatchIf<T(==)>(expected: Option<T>, actual: T, code: nat): seq<Reason> {
    if expected.Some? && expected.value != actual then [Because(code)] else []
  }

  function Mismatches(x: Expectation, a: AuthorityVector): seq<Reason> {
    MismatchIf(x.epoch, a.epoch, EPOCH_MISMATCH) +
    MismatchIf(x.coordinator, a.coordinator, COORDINATOR_MISMATCH) +
    MismatchIf(x.topologyGeneration, a.topologyGeneration, TOPOLOGY_GENERATION_MISMATCH) +
    MismatchIf(x.policyGeneration, a.policyGeneration, POLICY_GENERATION_MISMATCH) +
    MismatchIf(x.subjectGeneration, a.subjectGeneration, SUBJECT_GENERATION_MISMATCH) +
    MismatchIf(x.policyDigest, a.policyDigest, POLICY_GENERATION_MISMATCH) +
    MismatchIf(x.topologyDigest, a.topologyDigest, TOPOLOGY_GENERATION_MISMATCH)
  }

  function BaseDecision(e: EngineState, subject: LinkKey, generation: nat): Decision {
    Decision(ZERO_DIGEST, DecisionKind.Indeterminate, Nothing, Outcome.Indeterminate, e.options.fabric, subject, generation,
             false, NO_LINK, 0, 0, ZERO_DIGEST, e.epoch, e.incarnation, NO_AUTHORITY, ZERO_DIGEST, 0, false, false, [], [])
  }

  /** A decision about a recorded attempt starts from the record. */
  function DecisionAbout(e: EngineState, r: AttemptRecord, kind: DecisionKind, assertion: Assertion): Decision {
    BaseDecision(e, r.subject, r.generation).(
      attemptSeq := r.seqno, attemptId := r.attemptId, authority := r.authority,
      hasReplacement := !r.replacement.Empty(), replacement := r.replacement, replacementGeneration := r.replacementGeneration,
      kind := kind, assertion := assertion)
  }

  function Conclude(d: Decision, assertion: Assertion, outcome: Outcome, codes: seq<nat>): Decision {
    d.(assertion := assertion, outcome := outcome, reasons := d.reasons + Listed(codes))
  }

  function Listed(codes: seq<nat>): seq<Reason> {
    seq(|codes|, i requires 0 <= i < |codes| => Because(codes[i]))
  }

  function Remember(e: EngineState, d: Decision): EngineState {
    var all := e.decisions + [d];
    e.(decisions := if |all| > e.options.limits.maxDecisions then all[|all| - e.options.limits.maxDecisions..] else all)
  }

  /** The outcome that a failed commit reports. */
  function CommitOutcome(s: StoreState): Outcome {
    if !s.failed && s.d.lastSeq + 1 >= U64_LIMIT then Outcome.Exhausted else Outcome.IoError
  }

  function Write(e: EngineState, rec: Lineage.Record): EngineState {
    var s := Lineage.Commit(e.store, rec);
    e.(store := s, storeFailed := e.storeFailed || s.failed)
  }

  function CommitDecision(env: Env, e: EngineState, d: Decision): (EngineState, Decision) {
    var after := Write(e, Lineage.DecisionCommit(d));
    if after.store.failed then (after, d.(durable := false, reasons := d.reasons + [Because(INTERNAL_ERROR)]))
    else
      var written := d.(lineageSeq := after.store.d.lastSeq, durable := true);
      (after, written.(decisionId := env.h.decision(written)))
  }

  function EntryFor(d: Decision, key: Digest): IdempotencyEntry {
    IdempotencyEntry(key, d.decisionId, d.kind, d.assertion, d.outcome, d.subject, d.generation, d.hasReplacement,
                     d.replacement, d.replacementGeneration, d.attemptSeq, d.lineageSeq, d.reasons)
  }

  /** An entry too large for the index is dropped without a word. */
  function CommitIdempotency(env: Env, e: EngineState, d: Decision, key: Digest): EngineState {
    if key == ZERO_DIGEST || !d.durable || !env.fits(EntryFor(d, key)) then e
    else Write(e, Lineage.IdempotencyIndex(EntryFor(d, key)))
  }

  function TakeCheckpoint(e: EngineState): (EngineState, bool) {
    var (s, ok) := Lineage.Checkpoint(e.store);
    (e.(store := s, storeFailed := e.storeFailed || !ok), ok)
  }

  function MaybeCheckpoint(e: EngineState): EngineState {
    if !e.options.enableSnapshot || e.options.snapshotEvery == 0 || e.store.d.recordCount == 0
       || e.store.sinceSnapshot < e.options.snapshotEvery then e
    else TakeCheckpoint(e).0
  }

  function SettleDurable(env: Env, e: EngineState, d: Decision, key: Digest): (EngineState, Reply) {
    var (decided, written) := CommitDecision(env, e, d);
    (Remember(MaybeCheckpoint(CommitIdempotency(env, decided, written, key)), written), Decided(written))
  }

  function SettleUndurable(env: Env, e: EngineState, d: Decision): (EngineState, Reply) {
    var settled := d.(durable := false);
    var final := settled.(decisionId := env.h.decision(settled));
    (Remember(e, final), Decided(final))
  }

  function ReplayDecision(e: EngineState, entry: IdempotencyEntry): Decision {
    BaseDecision(e, entry.subject, entry.generation).(
      kind := entry.kind, assertion := entry.assertion, outcome := entry.outcome, decisionId := entry.decisionId,
      hasReplacement := entry.hasReplacement, replacement := entry.replacement,
      replacementGeneration := entry.replacementGeneration, attemptSeq := entry.attemptSeq, lineageSeq := entry.seqno,
      durable := true, idempotentReplay := true, reasons := entry.reasons + [Because(IDEMPOTENT_REPLAY)])
  }

  // ---- observations ----

  function Publish(env: Env, e: EngineState, o: Evidence.Observation): (EngineState, Reply) {
    if e.closed then (e, Failed(Outcome.Closed, SHUTDOWN))
    else if e.storeFailed then (e, Failed(Outcome.IoError, INTERNAL_ERROR))
    else
      var fault := Evidence.ShapeFault(e.options.fabric, o);
      if fault.Some? then (e, Failed(fault.value.0, fault.value.1))
      else
        var receipt := Evidence.Receipt(e.tick + 1, e.epoch, e.incarnation);
        var (book, status) := Evidence.Observe(e.book, env.h, o, receipt, e.options.limits.evidence);
        (e.(tick := e.tick + 1, book := book), if status.Done? then Done else Failed(status.outcome, status.code))
  }

  // ---- definitions ----

  function Fence(e: EngineState, kind: FenceKind, r: AttemptRecord): Lineage.Record {
    Lineage.FencePut(FenceRecord(kind, r.subject, r.generation, r.seqno, e.epoch, e.incarnation, 0, []))
  }

  function Revoked(r: AttemptRecord): AttemptRecord {
    r.(phase := Aborted, reasons := AddReason(r.reasons, Because(FENCED)))
  }

  function RevokeOne(e: EngineState, kind: FenceKind, r: AttemptRecord): EngineState {
    var put := Write(e, Lineage.AttemptPut(Lineage.Update, Revoked(r)));
    if put.store.failed then put else Write(put, Fence(e, kind, r))
  }

  /** Revokes every authority holder among `rest`, stopping at the first failed commit. */
  function RevokeAll(e: EngineState, kind: FenceKind, rest: seq<AttemptRecord>): EngineState
    decreases |rest|
  {
    if rest == [] || e.store.failed then e
    else RevokeAll(if HoldsAuthority(rest[0].phase) then RevokeOne(e, kind, rest[0]) else e, kind, rest[1..])
  }

  function Install(e: EngineState, rec: Lineage.Record, kind: FenceKind): (EngineState, Reply) {
    var installed := Write(e, rec);
    if installed.store.failed then (installed, Failed(CommitOutcome(e.store), INTERNAL_ERROR))
    else
      var revoked := RevokeAll(installed, kind, installed.store.d.attempts);
      (revoked, if revoked.store.failed then Failed(Outcome.IoError, INTERNAL_ERROR) else Done)
  }

  function SetPolicy(env: Env, e: EngineState, p: Policy): (EngineState, Reply) {
    var current := e.store.d.policy;
    if e.closed then (e, Failed(Outcome.Closed, SHUTDOWN))
    else if !ValidPolicy(p) then (e, Failed(Outcome.Invalid, POLICY_REJECTED))
    else if p.generation < current.generation then (e, Failed(Outcome.Stale, POLICY_GENERATION_MISMATCH))
    else if p.generation == current.generation then
      (e, if env.h.policy(p) == env.h.policy(current) then Done else Failed(Outcome.Conflict, POLICY_GENERATION_MISMATCH))
    else Install(e, Lineage.PolicyCommit(p), PolicyChanged)
  }

  function Canonicalised(t: Topology): Topology {
    t.(links := Sort(t.links, DefinitionLess))
  }

  function SetTopology(env: Env, e: EngineState, t: Topology): (EngineState, Reply) {
    var candidate := Canonicalised(t);
    var current := e.store.d.topology;
    var fault := TopologyFault(candidate);
    if e.closed then (e, Failed(Outcome.Closed, SHUTDOWN))
    else if fault.Some? then (e, Failed(fault.value.0, fault.value.1))
    else if candidate.generation < current.generation then (e, Failed(Outcome.Stale, TOPOLOGY_GENERATION_MISMATCH))
    else if candidate.generation == current.generation then
      (e, if env.h.topology(candidate) == env.h.topology(current) then Done
          else Failed(Outcome.Conflict, TOPOLOGY_GENERATION_MISMATCH))
    else Install(e, Lineage.TopologyCommit(candidate), TopologyChanged)
  }

  // ---- failover ----

  /** What is wrong with one candidate, given those before it. */
  function CandidateFault(fabric: Name, subject: LinkKey, seen: seq<Resolution.Candidate>, c: Resolution.Candidate): Option<(Outcome, nat)> {
    if c.link.fabric != fabric then Some((Outcome.NotFound, UNKNOWN_FABRIC))
    else if c.link == subject then Some((Outcome.Invalid, REPLACEMENT_IS_SUBJECT))
    else if exists x :: x in seen && x.link == c.link then Some((Outcome.Invalid, INVALID_ARGUMENT))
    else None
  }

  /** The first candidate that is wrong decides. */
  function CandidatesFault(fabric: Name, subject: LinkKey, cs: seq<Resolution.Candidate>): Option<(Outcome, nat)> {
    if cs == [] then None
    else
      var n := |cs| - 1;
      var earlier := CandidatesFault(fabric, subject, cs[..n]);
      if earlier.Some? then earlier else CandidateFault(fabric, subject, cs[..n], cs[n])
  }

  function RequestFault(e: EngineState, q: FailoverRequest): Option<(Outcome, nat)> {
    if q.subject.fabric != e.options.fabric then Some((Outcome.NotFound, UNKNOWN_FABRIC))
    else if q.subject.link == [] then Some((Outcome.Invalid, NULL_FIELD))
    else if q.generation == 0 then Some((Outcome.Invalid, UNKNOWN_GENERATION))
    else if |q.candidates| > e.options.limits.maxCandidates || |q.candidates| > e.store.d.policy.maxCandidates
    then Some((Outcome.LimitExceeded, LIMIT_EXCEEDED))
    else CandidatesFault(e.options.fabric, q.subject, q.candidates)
  }

  datatype Gate = Shut(decision: Decision, durable: bool) | Open

  function RequestDecision(env: Env, e: EngineState, q: FailoverRequest): Decision {
    BaseDecision(e, q.subject, q.generation).(authority := CurrentAuthority(env, e, q.subject, q.generation))
  }

  /** What refuses a well-bound request before its evidence is looked at, first refusal first. */
  function FailoverGate(env: Env, e: EngineState, q: FailoverRequest): Gate {
    var d := RequestDecision(env, e, q);
    var s := e.store.d;
    var mismatches := Mismatches(q.expected, d.authority);
    var active := Lineage.ActiveAuthority(s, q.subject, q.generation);
    var latest := Lineage.Latest(s.attempts, q.subject, q.generation);
    if mismatches != [] then
      Shut(d.(kind := DecisionKind.Indeterminate, assertion := Observation, outcome := Outcome.Stale,
              reasons := [Because(STALE_AUTHORITY)] + mismatches), false)
    else if !s.policy.failoverEnabled then
      Shut(Conclude(d.(kind := Refuse), Eligibility, Outcome.Refused, [POLICY_DISABLED]), false)
    else if active.Some? then
      Shut(Conclude(d.(kind := Refuse, attemptSeq := active.value.seqno, attemptId := active.value.attemptId),
                    Observation, Outcome.Conflict, [ALREADY_AUTHORITATIVE]), false)
    else if latest.Some? && latest.value.phase.Interrupted? then
      Shut(Conclude(d.(kind := DecisionKind.Indeterminate, attemptSeq := latest.value.seqno), Observation, Outcome.Indeterminate,
                    [if latest.value.revalidated then BACKEND_UNKNOWN else REVALIDATION_REQUIRED]), true)
    else Open
  }

  /** The record of an attempt that ended where it began. */
  function DeclinedAttempt(e: EngineState, q: FailoverRequest, d: Decision, evidenceDigest: Digest): AttemptRecord {
    AttemptRecord(q.subject, q.generation, d.attemptSeq, d.attemptId, q.key,
                  if d.kind.Refuse? then Phase.Refused else Phase.Indeterminate,
                  NO_LINK, 0, NO_AUTHORITY, evidenceDigest, e.tick, e.epoch, e.incarnation, 0, 0, None, ZERO_INCARNATION,
                  false, Revalidation.Unknown, d.reasons)
  }

  /** Within the budget a refusal is recorded as an attempt and settled durably. */
  function Decline(env: Env, e: EngineState, q: FailoverRequest, d: Decision, evidenceDigest: Digest): (EngineState, Reply) {
    if Lineage.CountOf(e.store.d.attempts, q.subject, q.generation) < e.store.d.policy.maxAttempts then
      var recorded := Write(e, Lineage.AttemptPut(Lineage.Create, DeclinedAttempt(e, q, d, evidenceDigest)));
      if recorded.store.failed then (recorded, Failed(CommitOutcome(e.store), INTERNAL_ERROR))
      else SettleDurable(env, recorded, d, q.key)
    else SettleUndurable(env, e, d.(reasons := d.reasons + [Because(ATTEMPTS_EXHAUSTED)]))
  }

  /** The decision when the failure itself is not established. */
  function UnestablishedDecision(env: Env, e: EngineState, q: FailoverRequest, outcome: Outcome, reason: nat, extra: seq<Reason>): Decision {
    var count := Lineage.CountOf(e.store.d.attempts, q.subject, q.generation);
    RequestDecision(env, e, q).(
      assertion := Observation, outcome := outcome, reasons := [Because(reason)] + extra,
      kind := if outcome.Refused? then Refuse else DecisionKind.Indeterminate,
      attemptSeq := count + 1,
      attemptId := if count < e.store.d.policy.maxAttempts then env.h.attempt(e.options.fabric, q.subject, q.generation, count + 1)
                   else ZERO_DIGEST)
  }

  predicate ResolvedLess(a: Selector.Resolved, b: Selector.Resolved) { LinkLess(a.candidate, b.candidate) }

  function SelectionFrom(e: EngineState, q: FailoverRequest, link: LinkDefinition, resolved: seq<Selector.Resolved>): Selector.Input {
    var policy := e.store.d.policy;
    Selector.Input(q.subject, policy,
                   if policy.requireSubjectCapacity && link.capacity > policy.minReplacementCapacity then link.capacity
                   else policy.minReplacementCapacity,
                   Sort(resolved, ResolvedLess))
  }

  ghost function SelectionInput(e: EngineState, q: FailoverRequest, link: LinkDefinition): Selector.Input {
    SelectionFrom(e, q, link, Resolution.ResolveAll(e.book, Viewpoint(e), e.store.d.topology.links, q.candidates))
  }

  /** The decision when no alternate is selected. */
  function UnselectedDecision(env: Env, e: EngineState, q: FailoverRequest, o: Selector.Selection, digest: Digest): Decision {
    var count := Lineage.CountOf(e.store.d.attempts, q.subject, q.generation);
    var d := RequestDecision(env, e, q).(
      candidates := o.assessments, evidenceDigest := digest, assertion := Eligibility, attemptSeq := count + 1,
      attemptId := env.h.attempt(e.options.fabric, q.subject, q.generation, count + 1));
    match o.status
    case ProvenInfeasible => d.(kind := Refuse, outcome := Outcome.Refused, reasons := Listed([CERTIFIED_INFEASIBLE, NO_ELIGIBLE_REPLACEMENT]))
    case EmptyCandidateSet => d.(kind := Refuse, outcome := Outcome.Refused, reasons := Listed([CANDIDATE_SET_EMPTY]))
    case _ => d.(kind := DecisionKind.Indeterminate, outcome := Outcome.Indeterminate, reasons := Listed([SELECTION_INDETERMINATE]))
  }

  function GrantedAuthority(env: Env, e: EngineState, q: FailoverRequest, chosen: Assessment, v: Verdicts.FailureVerdict): AuthorityVector
    requires v.Established?
  {
    CurrentAuthority(env, e, q.subject, q.generation).(
      replacement := chosen.candidate, replacementGeneration := chosen.generation, evidencePublisher := v.publisher,
      publisherIncarnation := v.incarnation, publisherSeq := v.seqno,
      attemptSeq := Lineage.CountOf(e.store.d.attempts, q.subject, q.generation) + 1, evidenceDigest := v.digest)
  }

  function GrantDecision(env: Env, e: EngineState, q: FailoverRequest, o: Selector.Selection, chosen: Assessment, v: Verdicts.FailureVerdict): Decision
    requires v.Established?
  {
    var count := Lineage.CountOf(e.store.d.attempts, q.subject, q.generation);
    RequestDecision(env, e, q).(
      candidates := o.assessments, evidenceDigest := v.digest, kind := Grant, assertion := Authorization, outcome := Outcome.Ok,
      hasReplacement := true, replacement := chosen.candidate, replacementGeneration := chosen.generation,
      attemptSeq := count + 1, attemptId := env.h.attempt(e.options.fabric, q.subject, q.generation, count + 1),
      reasons := Listed([SELECTED_HIGHEST_OBJECTIVE, FENCED]), authority := GrantedAuthority(env, e, q, chosen, v))
  }

  function GrantedAttempt(e: EngineState, q: FailoverRequest, d: Decision): AttemptRecord {
    var latest := Lineage.Latest(e.store.d.attempts, q.subject, q.generation);
    AttemptRecord(q.subject, q.generation, d.attemptSeq, d.attemptId, q.key, Evaluated, d.replacement, d.replacementGeneration,
                  d.authority, d.evidenceDigest, e.tick, e.epoch, e.incarnation, 0, 0,
                  if latest.Some? && HoldsAuthority(latest.value.phase) then Some(latest.value.attemptId) else None,
                  ZERO_INCARNATION, false, Revalidation.Unknown, d.reasons)
  }

  /** The grant: the intent is staged, then authorized, and only then decided. */
  function GrantAuthority(env: Env, e: EngineState, q: FailoverRequest, d: Decision): (EngineState, Reply) {
    var attempt := GrantedAttempt(e, q, d);
    var staged := Write(e, Lineage.AttemptPut(Lineage.Create, attempt));
    if staged.store.failed then (staged, Failed(CommitOutcome(e.store), INTERNAL_ERROR))
    else
      var authorized := Write(staged, Lineage.AttemptPut(Lineage.Update, attempt.(phase := Authorized)));
      if authorized.store.failed then (authorized, Failed(CommitOutcome(staged.store), INTERNAL_ERROR))
      else SettleDurable(env, authorized, d, q.key)
  }

  ghost function Select(env: Env, e: EngineState, q: FailoverRequest, link: LinkDefinition, v: Verdicts.FailureVerdict): (EngineState, Reply)
    requires v.Established?
  {
    var input := SelectionInput(e, q, link);
    Grantable(env, e, q, input, v)
  }

  function Grantable(env: Env, e: EngineState, q: FailoverRequest, input: Selector.Input, v: Verdicts.FailureVerdict): (EngineState, Reply)
    requires v.Established?
  {
    var o := Selector.Select(input);
    var count := Lineage.CountOf(e.store.d.attempts, q.subject, q.generation);
    if !Selector.Acceptable(input, o) then (e, Failed(Outcome.Indeterminate, INTERNAL_ERROR))
    else if !o.status.Selected? then Decline(env, e, q, UnselectedDecision(env, e, q, o, v.digest), v.digest)
    else if count >= e.store.d.policy.maxAttempts then
      SettleUndurable(env, e, Conclude(RequestDecision(env, e, q).(candidates := o.assessments, evidenceDigest := v.digest, kind := Refuse),
                                       Eligibility, Outcome.Refused, [ATTEMPTS_EXHAUSTED]))
    else if !Selector.NamesInput(input, o.assessments[o.selectedIndex.value]) then (e, Failed(Outcome.Indeterminate, INTERNAL_ERROR))
    else if count + 1 >= U64_LIMIT then (e, Failed(Outcome.Exhausted, ARITHMETIC_OVERFLOW))
    else GrantAuthority(env, e, q, GrantDecision(env, e, q, o, o.assessments[o.selectedIndex.value], v))
  }

  /** A request that is well formed, not a replay, and bound to the subject's current definition. */
  ghost function DecideBound(env: Env, e: EngineState, q: FailoverRequest, link: LinkDefinition): (EngineState, Reply) {
    var gate := FailoverGate(env, e, q);
    if gate.Shut? then
      if gate.durable then SettleDurable(env, e, gate.decision, q.key) else SettleUndurable(env, e, gate.decision)
    else
      match Verdicts.EvaluateFailure(e.book, Viewpoint(e), q.subject, q.generation)
      case NotEstablished(outcome, reason, extra) =>
        Decline(env, e, q, UnestablishedDecision(env, e, q, outcome, reason, extra), ZERO_DIGEST)
      case Established(p, i, n, digest) => Select(env, e, q, link, Verdicts.Established(p, i, n, digest))
  }

  ghost function RequestFailover(env: Env, e0: EngineState, q: FailoverRequest): (EngineState, Reply) {
    if e0.closed then (e0, Failed(Outcome.Closed, SHUTDOWN))
    else if e0.storeFailed then (e0, Failed(Outcome.IoError, INTERNAL_ERROR))
    else
      var e := e0.(tick := e0.tick + 1);
      var fault := RequestFault(e, q);
      var replay := Lineage.FindEntry(e.store.d.idempotency, q.key);
      var link := Find(e.store.d.topology.links, q.subject);
      if fault.Some? then (e, Failed(fault.value.0, fault.value.1))
      else if replay.Some? then (e, Decided(ReplayDecision(e, replay.value)))
      else if link.None? then (e, Failed(Outcome.NotFound, UNKNOWN_LINK))
      else if link.value.generation != q.generation then (e, Failed(Outcome.Stale, SUBJECT_GENERATION_MISMATCH))
      else DecideBound(env, e, q, link.value)
  }

  // ---- application, verification, rollback and revalidation ----

  /** What a call about a recorded attempt comes to, before anything is written. */
  datatype Plan =
    | Reject(outcome: Outcome, code: nat)
    | Repeat(decision: Decision)
    | Report(decision: Decision)
    | Put(kind: Lineage.PutKind, attempt: AttemptRecord, decision: Decision, checkpoints: bool)
    | CompleteEffect(verified: AttemptRecord, decision: Decision)
    | Revert(was: AttemptRecord, attempt: AttemptRecord, decision: Decision, key: Digest)

  /** Puts an updated attempt and decides; a failed write ends the call. */
  function PutThenSettle(env: Env, e: EngineState, kind: Lineage.PutKind, r: AttemptRecord, d: Decision, checkpoints: bool): (EngineState, Reply) {
    var put := Write(e, Lineage.AttemptPut(kind, r));
    if put.store.failed then (put, Failed(CommitOutcome(e.store), INTERNAL_ERROR))
    else
      var (decided, written) := CommitDecision(env, put, d);
      (Remember(if checkpoints then MaybeCheckpoint(decided) else decided, written), Decided(written))
  }

  /** A verified effect is recorded first, then committed as its own record. */
  function PutEffectThenCommit(env: Env, e: EngineState, verified: AttemptRecord, d: Decision): (EngineState, Reply) {
    var put := Write(e, Lineage.AttemptPut(Lineage.Update, verified));
    if put.store.failed then (put, Failed(CommitOutcome(e.store), INTERNAL_ERROR))
    else PutThenSettle(env, put, Lineage.Completion, verified.(phase := Phase.Committed), d, true)
  }

  /** A revocation is recorded, then fenced, then decided. */
  function RevertAuthority(env: Env, e: EngineState, was: AttemptRecord, r: AttemptRecord, d: Decision, key: Digest): (EngineState, Reply) {
    var put := Write(e, Lineage.AttemptPut(Lineage.Rollback, r));
    if put.store.failed then (put, Failed(CommitOutcome(e.store), INTERNAL_ERROR))
    else
      var fenced := Write(put, Fence(e, RollbackRevoked, was));
      if fenced.store.failed then (fenced, Failed(CommitOutcome(put.store), INTERNAL_ERROR))
      else
        var (decided, written) := CommitDecision(env, fenced, d);
        (Remember(CommitIdempotency(env, decided, written, key), written), Decided(written))
  }

  function Execute(env: Env, e: EngineState, plan: Plan): (EngineState, Reply) {
    match plan
    case Reject(outcome, code) => (e, Failed(outcome, code))
    case Repeat(d) => (e, Decided(d))
    case Report(d) => SettleUndurable(env, e, d)
    case Put(kind, r, d, checkpoints) => PutThenSettle(env, e, kind, r, d, checkpoints)
    case CompleteEffect(verified, d) => PutEffectThenCommit(env, e, verified, d)
    case Revert(was, r, d, key) => RevertAuthority(env, e, was, r, d, key)
  }

  function WithApplication(r: AttemptRecord, report: ApplicationReport, verifies: bool): AttemptRecord {
    if !report.accepted then r.(phase := Aborted, reasons := AddReason(r.reasons, Explained(BACKEND_REJECTED, report.detail)))
    else r.(applierIncarnation := report.applier, phase := if verifies then Acknowledged else Phase.Committed,
            reasons := AddReason(r.reasons, Because(ACKNOWLEDGEMENT_NOT_EFFECT)))
  }

  function PlanApplication(e: EngineState, report: ApplicationReport): Plan {
    var found := Lineage.Lookup(e.store.d.attempts, report.subject, report.attemptSeq);
    if found.None? then Reject(Outcome.NotFound, ATTEMPT_UNKNOWN)
    else
      var r := found.value;
      var d := DecisionAbout(e, r, Acknowledge, Acknowledgement);
      if r.generation != report.generation then Reject(Outcome.Stale, SUBJECT_GENERATION_MISMATCH)
      else if r.attemptId != report.attemptId then Reject(Outcome.Conflict, ATTEMPT_UNKNOWN)
      else if report.applier == ZERO_INCARNATION then Reject(Outcome.Invalid, WORKER_MISMATCH)
      else if Terminal(r.phase) then
        Report(Conclude(d, Acknowledgement, Outcome.Conflict,
                        [if r.phase.Committed? || r.phase.RolledBack? then LATE_ACKNOWLEDGEMENT else ATTEMPT_COMPLETED]))
      else if r.phase.Evaluated? then Report(Conclude(d, Acknowledgement, Outcome.Conflict, [ATTEMPT_UNKNOWN]))
      else if r.phase.Acknowledged? || r.phase.Verified? then
        Report(Conclude(d, Acknowledgement, Outcome.Conflict, [DUPLICATE_COMPLETION]))
      else
        var updated := WithApplication(r, report, e.store.d.policy.requireVerifiedEffect);
        Put(if updated.phase.Committed? then Lineage.Completion else Lineage.Update, updated,
            if report.accepted then Conclude(d, Acknowledgement, Outcome.Ok, [ACKNOWLEDGEMENT_NOT_EFFECT])
            else Conclude(d, Acknowledgement, Outcome.Refused, [BACKEND_REJECTED]), true)
  }

  function RecordApplication(env: Env, e: EngineState, report: ApplicationReport): (EngineState, Reply) {
    if e.closed then (e, Failed(Outcome.Closed, SHUTDOWN))
    else if e.storeFailed then (e, Failed(Outcome.IoError, INTERNAL_ERROR))
    else
      var ticked := e.(tick := e.tick + 1);
      Execute(env, ticked, PlanApplication(ticked, report))
  }

  function WithoutEffect(r: AttemptRecord, report: VerificationReport): AttemptRecord {
    r.(phase := Phase.Indeterminate, reasons := AddReason(r.reasons, Explained(EFFECT_UNVERIFIED, report.detail)))
  }

  function WithEffect(r: AttemptRecord, report: VerificationReport): AttemptRecord {
    r.(phase := Phase.Verified, reasons := AddReason(r.reasons, Explained(EFFECT_VERIFIED, report.detail)))
  }

  function PlanVerification(e: EngineState, report: VerificationReport): Plan {
    var found := Lineage.Lookup(e.store.d.attempts, report.subject, report.attemptSeq);
    if found.None? then Reject(Outcome.NotFound, ATTEMPT_UNKNOWN)
    else
      var r := found.value;
      var d := DecisionAbout(e, r, DecisionKind.Verify, Nothing);
      if r.attemptId != report.attemptId then Reject(Outcome.Conflict, ATTEMPT_UNKNOWN)
      else if r.phase.Committed? || r.phase.Verified? then
        Report(Conclude(d, VerifiedEffect, Outcome.Conflict, [DUPLICATE_COMPLETION]))
      else if !r.phase.Acknowledged? then Report(Conclude(d, Observation, Outcome.Conflict, [LATE_ACKNOWLEDGEMENT]))
      else if !report.effectObserved then
        Put(Lineage.Update, WithoutEffect(r, report), Conclude(d, Acknowledgement, Outcome.Indeterminate, [EFFECT_UNVERIFIED]), false)
      else CompleteEffect(WithEffect(r, report), Conclude(d, VerifiedEffect, Outcome.Ok, [EFFECT_VERIFIED]))
  }

  function RecordVerification(env: Env, e: EngineState, report: VerificationReport): (EngineState, Reply) {
    if e.closed then (e, Failed(Outcome.Closed, SHUTDOWN))
    else if e.storeFailed then (e, Failed(Outcome.IoError, INTERNAL_ERROR))
    else
      var ticked := e.(tick := e.tick + 1);
      Execute(env, ticked, PlanVerification(ticked, report))
  }

  function WithRollback(r: AttemptRecord, rationale: seq<byte>): AttemptRecord {
    r.(phase := Phase.RolledBack, reasons := AddReason(r.reasons, Explained(ROLLBACK_REQUESTED, rationale)))
  }

  function PlanRollback(env: Env, e: EngineState, q: RollbackRequest): Plan {
    var replay := Lineage.FindEntry(e.store.d.idempotency, q.key);
    var found := Lineage.Lookup(e.store.d.attempts, q.subject, q.attemptSeq);
    if replay.Some? then Repeat(ReplayDecision(e, replay.value))
    else if found.None? then Reject(Outcome.NotFound, ATTEMPT_UNKNOWN)
    else
      var r := found.value;
      var d := DecisionAbout(e, r, DecisionKind.Rollback, Nothing);
      var mismatches := Mismatches(q.expected, CurrentAuthority(env, e, q.subject, r.generation));
      if mismatches != [] then
        Report(d.(assertion := Observation, outcome := Outcome.Stale, reasons := [Because(STALE_AUTHORITY)] + mismatches))
      else if r.phase.RolledBack? then
        Report(Conclude(d, Authorization, Outcome.Ok, [IDEMPOTENT_REPLAY]).(idempotentReplay := true))
      else if !HoldsAuthority(r.phase) then Report(Conclude(d, Observation, Outcome.Conflict, [ROLLBACK_NOT_AUTHORIZED]))
      else
        Revert(r, WithRollback(r, q.rationale),
               Conclude(d, Authorization, Outcome.Ok, [ROLLBACK_COMPLETED, RESTORE_REQUIRES_NEW_GENERATION]), q.key)
  }

  function RequestRollback(env: Env, e: EngineState, q: RollbackRequest): (EngineState, Reply) {
    if e.closed then (e, Failed(Outcome.Closed, SHUTDOWN))
    else
      var ticked := e.(tick := e.tick + 1);
      Execute(env, ticked, PlanRollback(env, ticked, q))
  }

  /** The authority re-bound to the current boot and definitions. */
  function Rebound(env: Env, e: EngineState, a: AuthorityVector): AuthorityVector {
    a.(policyGeneration := e.store.d.policy.generation, policyDigest := env.h.policy(e.store.d.policy),
       topologyGeneration := e.store.d.topology.generation, topologyDigest := env.h.topology(e.store.d.topology),
       epoch := e.epoch, coordinator := e.incarnation)
  }

  function WithVerdict(env: Env, e: EngineState, r: AttemptRecord, verdict: Revalidation): AttemptRecord {
    var marked := r.(revalidated := true, revalidation := verdict);
    match verdict
    case NotApplied => marked.(phase := Aborted, reasons := AddReason(r.reasons, Because(FENCED)))
    case Applied =>
      marked.(phase := Phase.Committed, reasons := AddReason(r.reasons, Because(EFFECT_VERIFIED)),
              authority := Rebound(env, e, r.authority), coordinator := e.incarnation)
    case Unknown => marked.(reasons := AddReason(r.reasons, Because(BACKEND_UNKNOWN)))
  }

  function RevalidationDecision(env: Env, e: EngineState, r: AttemptRecord, d: Decision, verdict: Revalidation): Decision {
    var kept := [LINEAGE_PRESERVED, DYNAMIC_STATE_NOT_RESTORED];
    match verdict
    case NotApplied => Conclude(d, Observation, Outcome.Ok, [FENCED] + kept)
    case Applied =>
      Conclude(d, Authorization, Outcome.Ok,
               [EFFECT_VERIFIED] +
               (if r.authority.policyGeneration != e.store.d.policy.generation then [POLICY_GENERATION_MISMATCH] else []) +
               (if r.authority.topologyGeneration != e.store.d.topology.generation then [TOPOLOGY_GENERATION_MISMATCH] else []) +
               kept).(authority := Rebound(env, e, r.authority))
    case Unknown => Conclude(d, Observation, Outcome.Indeterminate, [BACKEND_UNKNOWN] + kept)
  }

  function PlanResolution(env: Env, e: EngineState, q: RevalidationRequest): Plan {
    var found := Lineage.Lookup(e.store.d.attempts, q.subject, q.attemptSeq);
    if found.None? then Reject(Outcome.NotFound, ATTEMPT_UNKNOWN)
    else
      var r := found.value;
      var d := DecisionAbout(e, r, DecisionKind.Revalidate, Observation);
      if r.revalidated then
        Report(Conclude(d, if r.revalidation.Applied? then Authorization else Observation,
                        if r.revalidation.Unknown? then Outcome.Indeterminate else Outcome.Ok,
                        [IDEMPOTENT_REPLAY]).(idempotentReplay := true))
      else if !r.phase.Interrupted? then Report(Conclude(d, Observation, Outcome.Conflict, [ATTEMPT_COMPLETED]))
      else
        Put(if q.verdict.Applied? then Lineage.Completion else Lineage.Update, WithVerdict(env, e, r, q.verdict),
            RevalidationDecision(env, e, r, d, q.verdict), false)
  }

  function ResolveInterrupted(env: Env, e: EngineState, q: RevalidationRequest): (EngineState, Reply) {
    if e.closed then (e, Failed(Outcome.Closed, SHUTDOWN))
    else if q.observer == ZERO_INCARNATION then (e, Failed(Outcome.Invalid, WORKER_MISMATCH))
    else if q.observerEpoch != e.epoch then (e, Failed(Outcome.Stale, EPOCH_MISMATCH))
    else
      var ticked := e.(tick := e.tick + 1);
      Execute(env, ticked, PlanResolution(env, ticked, q))
  }

  // ---- the applier boundary ----

  datatype Directive = Directive(
    subject: LinkKey,
    generation: nat,
    replacement: LinkKey,
    replacementGeneration: nat,
    attemptSeq: nat,
    attemptId: Digest,
    authority: AuthorityVector,
    issuedTick: nat)

  function DirectiveOf(r: AttemptRecord, tick: nat): Directive {
    Directive(r.subject, r.generation, r.replacement, r.replacementGeneration, r.seqno, r.attemptId, r.authority, tick)
  }

  predicate Pending(r: AttemptRecord) { r.phase.Authorized? && !r.replacement.Empty() }

  function Filtered(a: seq<AttemptRecord>): (p: seq<AttemptRecord>)
    ensures forall r :: r in p <==> r in a && Pending(r)
  {
    if a == [] then []
    else
      assert a == a[..|a| - 1] + [a[|a| - 1]];
      Filtered(a[..|a| - 1]) + (if Pending(a[|a| - 1]) then [a[|a| - 1]] else [])
  }

  function PendingRecords(e: EngineState): seq<AttemptRecord> {
    if e.closed then [] else Sort(Filtered(e.store.d.attempts), AttemptLess)
  }

  function Directives(records: seq<AttemptRecord>, tick: nat): (s: seq<Directive>)
    ensures |s| == |records| && forall i :: 0 <= i < |s| ==> s[i] == DirectiveOf(records[i], tick)
  {
    seq(|records|, i requires 0 <= i < |records| => DirectiveOf(records[i], tick))
  }

  function PendingDirectives(e: EngineState, maxCount: nat): seq<Directive> {
    var records := PendingRecords(e);
    var bound := if maxCount < e.options.limits.maxDirectives then maxCount else e.options.limits.maxDirectives;
    Directives(if |records| <= bound then records else records[..bound], e.tick)
  }

  // ---- compaction, closing, opening ----

  function CheckpointCall(e: EngineState): (EngineState, Reply) {
    if e.closed then (e, Failed(Outcome.Closed, SHUTDOWN))
    else
      var (after, ok) := TakeCheckpoint(e);
      (after, if ok then Done else Failed(Outcome.IoError, INTERNAL_ERROR))
  }

  function Close(e0: EngineState): (EngineState, Reply) {
    if e0.closed then (e0, Done)
    else
      var e := e0.(closed := true);
      var s := Lineage.Commit(e.store, Lineage.ShutdownMark(e.epoch, e.incarnation, e.store.d.lastSeq));
      if s.failed then (e.(store := s), Failed(CommitOutcome(e.store), INTERNAL_ERROR))
      else if !e.options.enableSnapshot then (e.(store := s), Done)
      else
        var (compacted, ok) := Lineage.Checkpoint(s);
        (e.(store := compacted, storeFailed := e.storeFailed || !ok), Done)
  }

  datatype Opening =
    | Opened(e: EngineState, interrupted: nat)
    | NotOpened(store: StoreState, outcome: Outcome, code: nat)

  function OptionsFault(o: Options): Option<(Outcome, nat)> {
    var fault := TopologyFault(o.topology);
    if !ValidPolicy(o.policy) then Some((Outcome.Invalid, POLICY_REJECTED))
    else if fault.Some? then fault
    else if o.fabric == [] then Some((Outcome.Invalid, UNKNOWN_FABRIC))
    else if o.topology.generation == 0 then Some((Outcome.Invalid, INVALID_ARGUMENT))
    else None
  }

  function StoreOptionsOf(o: Options): Lineage.StoreOptions {
    Lineage.StoreOptions(o.fabric, o.policy, o.topology, o.limits.store)
  }

  function Cut(r: AttemptRecord): AttemptRecord {
    r.(phase := Phase.Interrupted, reasons := AddReason(r.reasons, Because(InterruptionReason(r.phase))))
  }

  function InterruptOne(s: StoreState, r: AttemptRecord, epoch: nat, incarnation: Incarnation): StoreState {
    var put := Lineage.Commit(s, Lineage.AttemptPut(Lineage.Interruption, Cut(r)));
    if put.failed then put
    else Lineage.Commit(put, Lineage.FencePut(FenceRecord(PreRestartAuthority, r.subject, r.generation, r.seqno, epoch, incarnation, 0, [])))
  }

  /** Interrupts and fences every attempt of `rest` that was in flight, stopping at the first failed commit. */
  function FenceRestart(s: StoreState, rest: seq<AttemptRecord>, epoch: nat, incarnation: Incarnation): StoreState
    decreases |rest|
  {
    if rest == [] || s.failed then s
    else FenceRestart(if Terminal(rest[0].phase) then s else InterruptOne(s, rest[0], epoch, incarnation), rest[1..], epoch, incarnation)
  }

  function InFlight(a: seq<AttemptRecord>): (n: nat)
    ensures n <= |a|
  {
    if a == [] then 0 else InFlight(a[1..]) + (if Terminal(a[0].phase) then 0 else 1)
  }

  /** The boot record over a restored state. */
  function BootRecord(d: DurableState, incarnation: Incarnation): Lineage.Record {
    Lineage.Boot(d.epoch + 1, incarnation, d.bootCount + 1, d.epochAdvances + 1)
  }

  /** `was` is the store as the previous process left it; only its medium is read. */
  function OpenEngine(o: Options, incarnation: Incarnation, was: StoreState, fate: Lineage.Fate): Opening {
    var fault := OptionsFault(o);
    if fault.Some? then NotOpened(was, fault.value.0, fault.value.1)
    else
      var (restored, medium) := Lineage.OpenStore(was.medium, StoreOptionsOf(o), fate);
      if restored.Barred? then NotOpened(was, restored.outcome, restored.code)
      else BootStore(o, incarnation, Lineage.StoreState(restored.state, restored.state, medium, false, 0, o.limits.store, fate))
  }

  function BootStore(o: Options, incarnation: Incarnation, s: StoreState): Opening {
    if s.d.epoch + 1 >= U64_LIMIT || s.d.bootCount + 1 >= U64_LIMIT || s.d.epochAdvances + 1 >= U64_LIMIT
    then NotOpened(s, Outcome.Exhausted, ARITHMETIC_OVERFLOW)
    else
      var booted := Lineage.Commit(s, BootRecord(s.d, incarnation));
      if booted.failed then NotOpened(booted, CommitOutcome(s), INTERNAL_ERROR)
      else
        var fenced := FenceRestart(booted, booted.d.attempts, s.d.epoch + 1, incarnation);
        if fenced.failed then NotOpened(fenced, Outcome.IoError, INTERNAL_ERROR)
        else Opened(EngineState(o, fenced, incarnation, s.d.epoch + 1, 0, [], Evidence.EMPTY_BOOK, false, false),
                    InFlight(booted.d.attempts))
  }

  // ---- one call ----

  datatype Call =
    | Observing(observation: Evidence.Observation)
    | SettingPolicy(policy: Policy)
    | SettingTopology(topology: Topology)
    | Requesting(request: FailoverRequest)
    | Applying(application: ApplicationReport)
    | Verifying(verification: VerificationReport)
    | RollingBack(rollback: RollbackRequest)
    | Resolving(revalidation: RevalidationRequest)
    | Checkpointing
    | Closing

  ghost function Perform(env: Env, e: EngineState, call: Call): (EngineState, Reply) {
    match call
    case Observing(o) => Publish(env, e, o)
    case SettingPolicy(p) => SetPolicy(env, e, p)
    case SettingTopology(t) => SetTopology(env, e, t)
    case Requesting(q) => RequestFailover(env, e, q)
    case Applying(r) => RecordApplication(env, e, r)
    case Verifying(r) => RecordVerification(env, e, r)
    case RollingBack(q) => RequestRollback(env, e, q)
    case Resolving(q) => ResolveInterrupted(env, e, q)
    case Checkpointing => CheckpointCall(e)
    case Closing => Close(e)
  }
}
