/** The stable wire numbers of the reason codes that the model mentions. */
module Reasons {
  const INVALID_ARGUMENT: nat := 1
  const LIMIT_EXCEEDED: nat := 4
  const CHECKSUM_MISMATCH: nat := 5
  const UNSUPPORTED_FORMAT: nat := 6
  const CORRUPT_RECORD: nat := 8
  const SEQUENCE_REGRESSION: nat := 9
  const NULL_FIELD: nat := 11
  const UNKNOWN_FABRIC: nat := 12
  const UNKNOWN_LINK: nat := 13
  const UNKNOWN_GENERATION: nat := 14
  const GENERATION_MISMATCH: nat := 15
  const POLICY_GENERATION_MISMATCH: nat := 16
  const TOPOLOGY_GENERATION_MISMATCH: nat := 17
  const SUBJECT_GENERATION_MISMATCH: nat := 18
  const REPLACEMENT_GENERATION_MISMATCH: nat := 19
  const EPOCH_MISMATCH: nat := 20
  const STALE_AUTHORITY: nat := 22
  const SESSION_SEQUENCE_REPLAYED: nat := 25
  const COORDINATOR_MISMATCH: nat := 26
  const PUBLISHER_MISMATCH: nat := 27
  const WORKER_MISMATCH: nat := 28
  const EVIDENCE_MISSING: nat := 30
  const EVIDENCE_UNKNOWN: nat := 31
  const EVIDENCE_STALE: nat := 32
  const EVIDENCE_CONFLICTED: nat := 33
  const EVIDENCE_LOW_CONFIDENCE: nat := 34
  const EVIDENCE_PRIOR_INCARNATION: nat := 36
  const SUBJECT_NOT_FAILED: nat := 37
  const REPLACEMENT_NOT_ELIGIBLE: nat := 39
  const REPLACEMENT_INSUFFICIENT_CAPACITY: nat := 40
  const REPLACEMENT_NOT_ADJACENT: nat := 41
  const REPLACEMENT_STATE_UNUSABLE: nat := 42
  const REPLACEMENT_IS_SUBJECT: nat := 43
  const NO_ELIGIBLE_REPLACEMENT: nat := 44
  const SELECTION_INDETERMINATE: nat := 45
  const SELECTED_HIGHEST_OBJECTIVE: nat := 46
  const CERTIFIED_INFEASIBLE: nat := 47
  const CANDIDATE_SET_EMPTY: nat := 48
  const ALREADY_AUTHORITATIVE: nat := 49
  const ATTEMPT_COMPLETED: nat := 51
  const ATTEMPT_UNKNOWN: nat := 52
  const DUPLICATE_COMPLETION: nat := 53
  const LATE_ACKNOWLEDGEMENT: nat := 54
  const IDEMPOTENT_REPLAY: nat := 56
  const REVALIDATION_REQUIRED: nat := 57
  const FENCED: nat := 59
  const ATTEMPTS_EXHAUSTED: nat := 60
  const BACKEND_REJECTED: nat := 61
  const BACKEND_UNKNOWN: nat := 62
  const EFFECT_UNVERIFIED: nat := 63
  const EFFECT_VERIFIED: nat := 64
  const ACKNOWLEDGEMENT_NOT_EFFECT: nat := 65
  const ROLLBACK_REQUESTED: nat := 66
  const ROLLBACK_NOT_AUTHORIZED: nat := 67
  const ROLLBACK_COMPLETED: nat := 68
  const RESTORE_REQUIRES_NEW_GENERATION: nat := 69
  const INTERRUPTED_BEFORE_COMMIT: nat := 71
  const INTERRUPTED_AFTER_COMMIT: nat := 72
  const INTERRUPTED_AFTER_APPLY: nat := 73
  const LINEAGE_PRESERVED: nat := 75
  const DYNAMIC_STATE_NOT_RESTORED: nat := 76
  const SHUTDOWN: nat := 84
  const RESERVED_BITS_SET: nat := 86
  const POLICY_REJECTED: nat := 87
  const POLICY_DISABLED: nat := 89
  const INTERNAL_ERROR: nat := 90
  const ARITHMETIC_OVERFLOW: nat := 91

  const REASON_CODE_COUNT: nat := 94
}

/** The values the engine keeps, writes and answers with. */
module Records {
  import opened Basics
  import opened ByteBits
  import opened Reasons

  const MAX_CONFIDENCE: nat := 1000
  const MAX_ATTEMPT_REASONS: nat := 16
  const MAX_REASON_DETAIL: nat := 160
  const MAX_TOPOLOGY_LINKS: nat := 4096
  const MAX_POLICY_CANDIDATES: nat := 256
  const MAX_RETAINED_PER_LINK: nat := 256
  const MAX_EVIDENCE_AGE: nat := 0x100_0000_0000

  datatype Outcome =
    | Ok | Refused | Unknown | Stale | Conflict | Invalid | Unsupported | NotFound | LimitExceeded
    | Corrupt | Indeterminate | Interrupted | Exhausted | IoError | Closed | Unauthenticated

  datatype Reason = Reason(code: nat, detail: seq<byte>)

  /** A reason whose fixed text is not modelled. */
  function Because(code: nat): Reason { Reason(code, []) }

  /** A reason with a caller's text, cut to the bound. */
  function Explained(code: nat, detail: seq<byte>): (r: Reason)
    ensures r.code == code && r.detail <= detail && |r.detail| <= MAX_REASON_DETAIL
    ensures |detail| <= MAX_REASON_DETAIL ==> r.detail == detail
  {
    Reason(code, if |detail| > MAX_REASON_DETAIL then detail[..MAX_REASON_DETAIL] else detail)
  }

  // ---- definitions ----

  datatype AgreementRule = Unanimous | Majority

  datatype Policy = Policy(
    generation: nat,
    minFailureConfidence: nat,
    minReplacementConfidence: nat,
    evidenceMaxAge: nat,
    minReplacementCapacity: nat,
    requireSubjectCapacity: bool,
    requireAdjacency: bool,
    allowDegraded: bool,
    treatDegradedAsFailed: bool,
    agreement: AgreementRule,
    maxAttempts: nat,
    maxCandidates: nat,
    maxRetained: nat,
    requireVerifiedEffect: bool,
    failoverEnabled: bool)

  predicate ValidPolicy(p: Policy) {
    && p.minFailureConfidence <= MAX_CONFIDENCE
    && p.minReplacementConfidence <= MAX_CONFIDENCE
    && 0 < p.evidenceMaxAge <= MAX_EVIDENCE_AGE
    && 0 < p.maxCandidates <= MAX_POLICY_CANDIDATES
    && 0 < p.maxAttempts <= 1024
    && 0 < p.maxRetained <= MAX_RETAINED_PER_LINK
    && p.generation != 0
  }

  datatype LinkDefinition = LinkDefinition(link: LinkKey, generation: nat, capacity: nat)

  datatype Topology = Topology(generation: nat, links: seq<LinkDefinition>)

  predicate DefinitionLess(a: LinkDefinition, b: LinkDefinition) {
    if LinkLess(a.link, b.link) then true
    else if LinkLess(b.link, a.link) then false
    else a.generation > b.generation
  }

  /** The first fault of a topology, in the order the checks run. */
  function TopologyFault(t: Topology): Option<(Outcome, nat)> {
    if |t.links| > MAX_TOPOLOGY_LINKS then Some((Outcome.LimitExceeded, LIMIT_EXCEEDED))
    else if exists d :: d in t.links && (d.link.Empty() || d.generation == 0) then Some((Outcome.Invalid, INVALID_ARGUMENT))
    else if exists i :: 0 < i < |t.links| && !LinkLess(t.links[i - 1].link, t.links[i].link)
    then Some((Outcome.Invalid, INVALID_ARGUMENT))
    else None
  }

  /** The definition of a link, if the topology has one. */
  function Find(links: seq<LinkDefinition>, key: LinkKey): (r: Option<LinkDefinition>)
    ensures r.Some? ==> r.value in links && r.value.link == key
    ensures r.None? ==> forall d :: d in links ==> d.link != key
  {
    if links == [] then None
    else if links[0].link == key then Some(links[0])
    else Find(links[1..], key)
  }

  /** A link generation that the topology defines now. */
  predicate Defines(t: Topology, subject: LinkKey, generation: nat) {
    var found := Find(t.links, subject);
    found.Some? && found.value.generation == generation
  }

  // ---- attempts ----

  datatype Phase =
    | Evaluated | Authorized | Acknowledged | Verified
    | Refused | Indeterminate | Committed | RolledBack | Interrupted | Superseded | Aborted

  predicate Terminal(p: Phase) {
    p.Refused? || p.Indeterminate? || p.Committed? || p.RolledBack? || p.Interrupted? || p.Superseded? || p.Aborted?
  }

  predicate HoldsAuthority(p: Phase) {
    p.Authorized? || p.Acknowledged? || p.Verified? || p.Committed?
  }

  function InterruptionReason(p: Phase): nat {
    match p
    case Evaluated => INTERRUPTED_BEFORE_COMMIT
    case Authorized => INTERRUPTED_AFTER_COMMIT
    case Acknowledged => INTERRUPTED_AFTER_APPLY
    case Verified => INTERRUPTED_AFTER_APPLY
    case _ => ATTEMPT_UNKNOWN
  }

  datatype Revalidation = NotApplied | Applied | Unknown

  datatype AuthorityVector = AuthorityVector(
    fabric: Name,
    subject: LinkKey,
    subjectGeneration: nat,
    replacement: LinkKey,
    replacementGeneration: nat,
    topologyGeneration: nat,
    topologyDigest: Digest,
    policyGeneration: nat,
    policyDigest: Digest,
    epoch: nat,
    coordinator: Incarnation,
    evidencePublisher: Name,
    publisherIncarnation: Incarnation,
    publisherSeq: nat,
    applierIncarnation: Incarnation,
    attemptSeq: nat,
    evidenceDigest: Digest)

  const NO_AUTHORITY := AuthorityVector(
    [], NO_LINK, 0, NO_LINK, 0, 0, ZERO_DIGEST, 0, ZERO_DIGEST, 0, ZERO_INCARNATION,
    [], ZERO_INCARNATION, 0, ZERO_INCARNATION, 0, ZERO_DIGEST)

  datatype AttemptRecord = AttemptRecord(
    subject: LinkKey,
    generation: nat,
    seqno: nat,
    attemptId: Digest,
    key: Digest,
    phase: Phase,
    replacement: LinkKey,
    replacementGeneration: nat,
    authority: AuthorityVector,
    evidenceDigest: Digest,
    createdTick: nat,
    createdEpoch: nat,
    coordinator: Incarnation,
    createSeq: nat,
    updateSeq: nat,
    predecessor: Option<Digest>,
    applierIncarnation: Incarnation,
    revalidated: bool,
    revalidation: Revalidation,
    reasons: seq<Reason>)

  /** Appends a reason to an attempt, dropping the oldest when there are too many. */
  function AddReason(reasons: seq<Reason>, r: Reason): (s: seq<Reason>)
    ensures s != [] && s[|s| - 1] == r
    ensures |reasons| <= MAX_ATTEMPT_REASONS ==> |s| <= MAX_ATTEMPT_REASONS
  {
    var more := reasons + [r];
    if |more| > MAX_ATTEMPT_REASONS then more[1..] else more
  }

  predicate AttemptLess(a: AttemptRecord, b: AttemptRecord) {
    if LinkLess(a.subject, b.subject) then true
    else if LinkLess(b.subject, a.subject) then false
    else a.seqno < b.seqno
  }

  datatype FenceKind =
    | AttemptSuperseded | PreRestartAuthority | SessionRevoked | PolicyChanged | TopologyChanged
    | EpochAdvanced | RollbackRevoked

  datatype FenceRecord = FenceRecord(
    kind: FenceKind,
    subject: LinkKey,
    generation: nat,
    attemptSeq: nat,
    epoch: nat,
    coordinator: Incarnation,
    seqno: nat,
    detail: seq<byte>)

  // ---- decisions ----

  datatype DecisionKind = Observe | Grant | Refuse | Rollback | Revalidate | Indeterminate | Acknowledge | Verify | Fence

  datatype Assertion = Nothing | Observation | Eligibility | Recommendation | Authorization | Acknowledgement | VerifiedEffect

  datatype ObservationState = Unknown | Up | Degraded | Down | Unusable

  predicate IsFailure(s: ObservationState, treatDegradedAsFailed: bool) {
    s.Down? || s.Unusable? || (s.Degraded? && treatDegradedAsFailed)
  }

  datatype Freshness = Current | Expired | PriorIncarnation | Future

  datatype Verdict = Eligible | Disproven | Indeterminate

  datatype Assessment = Assessment(
    candidate: LinkKey,
    generation: nat,
    verdict: Verdict,
    reason: nat,
    state: ObservationState,
    confidence: nat,
    freshness: Freshness,
    age: nat,
    capacity: nat,
    cost: nat,
    adjacencyAuthorized: bool,
    evidenceDigest: Digest,
    detail: seq<byte>)

  datatype Decision = Decision(
    decisionId: Digest,
    kind: DecisionKind,
    assertion: Assertion,
    outcome: Outcome,
    fabric: Name,
    subject: LinkKey,
    generation: nat,
    hasReplacement: bool,
    replacement: LinkKey,
    replacementGeneration: nat,
    attemptSeq: nat,
    attemptId: Digest,
    epoch: nat,
    coordinator: Incarnation,
    authority: AuthorityVector,
    evidenceDigest: Digest,
    lineageSeq: nat,
    durable: bool,
    idempotentReplay: bool,
    reasons: seq<Reason>,
    candidates: seq<Assessment>)

  datatype IdempotencyEntry = IdempotencyEntry(
    key: Digest,
    decisionId: Digest,
    kind: DecisionKind,
    assertion: Assertion,
    outcome: Outcome,
    subject: LinkKey,
    generation: nat,
    hasReplacement: bool,
    replacement: LinkKey,
    replacementGeneration: nat,
    attemptSeq: nat,
    seqno: nat,
    reasons: seq<Reason>)

  // ---- observations ----

  datatype Stamp = Stamp(publisher: Name, incarnation: Incarnation, epoch: nat, seqno: nat, wallClock: int)

  datatype FailureReport = FailureReport(
    subject: LinkKey,
    generation: nat,
    topologyGeneration: nat,
    state: ObservationState,
    confidence: nat,
    stamp: Stamp)

  datatype ReplacementReport = ReplacementReport(
    candidate: LinkKey,
    generation: nat,
    topologyGeneration: nat,
    state: ObservationState,
    confidence: nat,
    capacity: nat,
    cost: nat,
    adjacencyAuthorized: bool,
    adjacencyPolicyGeneration: nat,
    stamp: Stamp)

  // ---- the content digests ----

  /** The digests the engine computes; every result holds whatever they are. */
  datatype Hashes = Hashes(
    policy: Policy -> Digest,
    topology: Topology -> Digest,
    attempt: (Name, LinkKey, nat, nat) -> Digest,
    decision: Decision -> Digest,
    failure: FailureReport -> Digest,
    replacement: ReplacementReport -> Digest)
}
