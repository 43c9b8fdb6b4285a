/** What a failover request must be, and what must hold, before its evidence is looked at. */
module Gate {
  import opened Basics
  import opened Reasons
  import opened Records
  import opened Lineage
  import opened Protocol
  import opened Answers
  import Resolution

  // ---- the request's own form ----

  /** A candidate is out of place: another fabric's, the subject itself, or named before. */
  predicate Misplaced(fabric: Name, q: FailoverRequest, i: nat)
    requires i < |q.candidates|
  {
    q.candidates[i].link.fabric != fabric || q.candidates[i].link == q.subject
    || exists j :: 0 <= j < i && q.candidates[j].link == q.candidates[i].link
  }

  /** How the first candidate out of place is answered. */
  ghost predicate MisplacedAnswer(fabric: Name, q: FailoverRequest, i: nat, reply: Reply)
    requires i < |q.candidates|
  {
    && Misplaced(fabric, q, i) && (forall j :: 0 <= j < i ==> !Misplaced(fabric, q, j))
    && reply == (if q.candidates[i].link.fabric != fabric then Failed(Outcome.NotFound, UNKNOWN_FABRIC)
                 else if q.candidates[i].link == q.subject then Failed(Outcome.Invalid, REPLACEMENT_IS_SUBJECT)
                 else Failed(Outcome.Invalid, INVALID_ARGUMENT))
  }

  /** The request names a link of the engine's fabric under a generation, and distinct alternates to it, no more than both bounds allow. */
  ghost predicate WellFormed(e: EngineState, q: FailoverRequest) {
    && q.subject.fabric == e.options.fabric && q.subject.link != [] && q.generation != 0
    && |q.candidates| <= e.options.limits.maxCandidates && |q.candidates| <= e.store.d.policy.maxCandidates
    && forall i :: 0 <= i < |q.candidates| ==> !Misplaced(e.options.fabric, q, i)
  }

  /** How a malformed request is answered. */
  ghost predicate MalformedAnswer(e: EngineState, q: FailoverRequest, reply: Reply) {
    if q.subject.fabric != e.options.fabric then reply == Failed(Outcome.NotFound, UNKNOWN_FABRIC)
    else if q.subject.link == [] then reply == Failed(Outcome.Invalid, NULL_FIELD)
    else if q.generation == 0 then reply == Failed(Outcome.Invalid, UNKNOWN_GENERATION)
    else if |q.candidates| > e.options.limits.maxCandidates || |q.candidates| > e.store.d.policy.maxCandidates
    then reply == Failed(Outcome.LimitExceeded, LIMIT_EXCEEDED)
    else exists i :: 0 <= i < |q.candidates| && MisplacedAnswer(e.options.fabric, q, i, reply)
  }

  lemma {:induction false} CandidatesAre(fabric: Name, q: FailoverRequest, n: nat)
    requires n <= |q.candidates|
    ensures var fault := CandidatesFault(fabric, q.subject, q.candidates[..n]);
            if fault.None? then forall i :: 0 <= i < n ==> !Misplaced(fabric, q, i)
            else exists i :: 0 <= i < n && MisplacedAnswer(fabric, q, i, Failed(fault.value.0, fault.value.1))
    decreases n
  {
    hide Misplaced, MisplacedAnswer, CandidateFault;
    if n > 0 {
      CandidatesAre(fabric, q, n - 1);
      var cs := q.candidates[..n];
      assert cs[..n - 1] == q.candidates[..n - 1] && cs[n - 1] == q.candidates[n - 1];
      OneCandidate(fabric, q, n - 1);
    }
  }

  lemma OneCandidate(fabric: Name, q: FailoverRequest, i: nat)
    requires i < |q.candidates|
    ensures var fault := CandidateFault(fabric, q.subject, q.candidates[..i], q.candidates[i]);
            && (fault.None? <==> !Misplaced(fabric, q, i))
            && (fault.Some? && (forall j :: 0 <= j < i ==> !Misplaced(fabric, q, j)) ==>
                  MisplacedAnswer(fabric, q, i, Failed(fault.value.0, fault.value.1)))
  {
    SeenBefore(q, i);
  }

  lemma SeenBefore(q: FailoverRequest, i: nat)
    requires i < |q.candidates|
    ensures (exists x :: x in q.candidates[..i] && x.link == q.candidates[i].link)
            <==> exists j :: 0 <= j < i && q.candidates[j].link == q.candidates[i].link
  {
    if j :| 0 <= j < i && q.candidates[j].link == q.candidates[i].link {
      assert q.candidates[j] in q.candidates[..i];
    }
  }

  /** The engine refuses a request for its form exactly when it is malformed, and says why. */
  lemma FormIsChecked(e: EngineState, q: FailoverRequest)
    ensures RequestFault(e, q).None? <==> WellFormed(e, q)
    ensures RequestFault(e, q).Some? ==> MalformedAnswer(e, q, Failed(RequestFault(e, q).value.0, RequestFault(e, q).value.1))
  {
    hide Misplaced;
    CandidatesAre(e.options.fabric, q, |q.candidates|);
    assert q.candidates[..|q.candidates|] == q.candidates;
  }

  // ---- the attempts of the pair ----

  predicate OfRequest(r: AttemptRecord, q: FailoverRequest) { r.subject == q.subject && r.generation == q.generation }

  /** The attempt holds authority that this process gave. */
  predicate HoldsNow(d: Lineage.DurableState, r: AttemptRecord) {
    r.phase in {Authorized, Acknowledged, Phase.Verified, Phase.Committed} && r.authority.epoch == d.epoch && r.authority.coordinator == d.coordinator
  }

  /** The pair's attempt with the highest sequence, the first of them in the table. */
  ghost predicate NewestAt(a: seq<AttemptRecord>, q: FailoverRequest, i: int) {
    && 0 <= i < |a| && OfRequest(a[i], q)
    && forall j :: 0 <= j < |a| && OfRequest(a[j], q) ==> if j < i then a[j].seqno < a[i].seqno else a[j].seqno <= a[i].seqno
  }

  /** The pair's attempt that holds authority under the highest sequence. */
  ghost predicate HolderAt(d: Lineage.DurableState, q: FailoverRequest, i: int) {
    var a := d.attempts;
    && 0 <= i < |a| && OfRequest(a[i], q) && HoldsNow(d, a[i])
    && forall j :: 0 <= j < |a| && OfRequest(a[j], q) && HoldsNow(d, a[j]) ==> if j < i then a[j].seqno < a[i].seqno else a[j].seqno <= a[i].seqno
  }

  lemma {:induction false} HighestIsFirst(a: seq<AttemptRecord>, fits: AttemptRecord -> bool) returns (i: nat)
    requires Highest(a, fits).Some?
    ensures i < |a| && a[i] == Highest(a, fits).value
    ensures forall j :: 0 <= j < |a| && fits(a[j]) ==> if j < i then a[j].seqno < a[i].seqno else a[j].seqno <= a[i].seqno
    decreases |a|
  {
    var n := |a| - 1;
    var best := Highest(a[..n], fits);
    if fits(a[n]) && (best.None? || best.value.seqno < a[n].seqno) {
      i := n;
      forall j | 0 <= j < n && fits(a[j]) ensures a[j].seqno < a[n].seqno { assert a[j] in a[..n]; }
    } else {
      i := HighestIsFirst(a[..n], fits);
      forall j | 0 <= j < |a| && fits(a[j]) ensures if j < i then a[j].seqno < a[i].seqno else a[j].seqno <= a[i].seqno {
        if j < n { assert a[..n][j] == a[j]; }
      }
    }
  }

  lemma LatestIsNewest(a: seq<AttemptRecord>, q: FailoverRequest)
    ensures var latest := Latest(a, q.subject, q.generation);
            && (latest.None? <==> forall r :: r in a ==> !OfRequest(r, q))
            && (latest.Some? ==> exists i :: NewestAt(a, q, i) && a[i] == latest.value)
  {
    if Latest(a, q.subject, q.generation).Some? {
      var i := HighestIsFirst(a, OfThisPair(q.subject, q.generation));
      assert NewestAt(a, q, i);
    }
  }

  lemma OneNewest(a: seq<AttemptRecord>, q: FailoverRequest, i: int, k: int)
    requires NewestAt(a, q, i) && NewestAt(a, q, k)
    ensures i == k
  {}

  lemma ActiveIsHolder(d: Lineage.DurableState, q: FailoverRequest)
    ensures var active := ActiveAuthority(d, q.subject, q.generation);
            && (active.None? <==> forall r :: r in d.attempts && OfRequest(r, q) ==> !HoldsNow(d, r))
            && (active.Some? ==> exists i :: HolderAt(d, q, i) && d.attempts[i] == active.value)
  {
    var active := ActiveAuthority(d, q.subject, q.generation);
    var fits := ActiveOfThisPair(d, q.subject, q.generation);
    forall r ensures fits(r) == (OfRequest(r, q) && HoldsNow(d, r)) {}
    if active.Some? {
      var i := HighestIsFirst(d.attempts, fits);
      assert HolderAt(d, q, i);
    }
  }

  // ---- the gate ----

  /** Nothing stands in the way of looking at the evidence. */
  ghost predicate Passes(env: Env, e: EngineState, q: FailoverRequest) {
    && Agrees(env, e, q.generation, q.expected)
    && e.store.d.policy.failoverEnabled
    && (forall r :: r in e.store.d.attempts && OfRequest(r, q) ==> !HoldsNow(e.store.d, r))
    && forall i :: NewestAt(e.store.d.attempts, q, i) ==> e.store.d.attempts[i].phase != Phase.Interrupted
  }

  /** The vector of what is in force, without a replacement and without evidence. */
  function InForce(env: Env, e: EngineState, q: FailoverRequest): AuthorityVector {
    AuthorityVector(e.options.fabric, q.subject, q.generation, NO_LINK, 0,
                    e.store.d.topology.generation, env.h.topology(e.store.d.topology), e.store.d.policy.generation, env.h.policy(e.store.d.policy),
                    e.epoch, e.incarnation, [], ZERO_INCARNATION, 0, ZERO_INCARNATION, 0, ZERO_DIGEST)
  }

  /** A decision of this process on the request. */
  predicate OnRequest(e: EngineState, q: FailoverRequest, d: Decision) {
    && d.fabric == e.options.fabric && d.subject == q.subject && d.generation == q.generation
    && d.epoch == e.epoch && d.coordinator == e.incarnation && !d.idempotentReplay
  }

  /** It names no replacement and grants nothing. */
  predicate Empty(env: Env, e: EngineState, q: FailoverRequest, d: Decision) {
    && OnRequest(e, q, d) && !d.hasReplacement && d.replacement == NO_LINK && d.replacementGeneration == 0
    && d.authority == InForce(env, e, q)
  }

  /** A refusal before the evidence, of the pair's attempt under `seqno` if there is one. */
  predicate Refusal(env: Env, e: EngineState, q: FailoverRequest, d: Decision, kind: DecisionKind, assertion: Assertion, outcome: Outcome, codes: seq<nat>,
                    seqno: nat, id: Digest) {
    && Says(d, kind, assertion, outcome, codes) && Empty(env, e, q, d) && d.attemptSeq == seqno && d.attemptId == id
    && d.evidenceDigest == ZERO_DIGEST && d.candidates == []
  }

  /** What refuses the request before its evidence is looked at, first refusal first; only the last kind is durable. */
  ghost predicate TurnsAway(env: Env, e: EngineState, q: FailoverRequest, d: Decision, durable: bool) {
    var a := e.store.d.attempts;
    if !Agrees(env, e, q.generation, q.expected) then
      !durable && Refusal(env, e, q, d, DecisionKind.Indeterminate, Observation, Outcome.Stale,
                          [STALE_AUTHORITY] + Complaints(env, e, q.generation, q.expected), 0, ZERO_DIGEST)
    else if !e.store.d.policy.failoverEnabled then
      !durable && Refusal(env, e, q, d, Refuse, Eligibility, Outcome.Refused, [POLICY_DISABLED], 0, ZERO_DIGEST)
    else if exists r :: r in a && OfRequest(r, q) && HoldsNow(e.store.d, r) then
      !durable && exists i :: HolderAt(e.store.d, q, i)
                              && Refusal(env, e, q, d, Refuse, Observation, Outcome.Conflict, [ALREADY_AUTHORITATIVE], a[i].seqno, a[i].attemptId)
    else
      durable && exists i :: NewestAt(a, q, i) && a[i].phase == Phase.Interrupted
                             && Refusal(env, e, q, d, DecisionKind.Indeterminate, Observation, Outcome.Indeterminate,
                                        [if a[i].revalidated then BACKEND_UNKNOWN else REVALIDATION_REQUIRED], a[i].seqno, ZERO_DIGEST)
  }

  lemma RequestIsEmpty(env: Env, e: EngineState, q: FailoverRequest)
    ensures var d := RequestDecision(env, e, q);
            Empty(env, e, q, d) && d.reasons == [] && d.attemptSeq == 0 && d.attemptId == ZERO_DIGEST
            && d.evidenceDigest == ZERO_DIGEST && d.candidates == []
  {}

  lemma RefusalIs(env: Env, e: EngineState, q: FailoverRequest, d: Decision, kind: DecisionKind, assertion: Assertion, outcome: Outcome, code: nat)
    requires Empty(env, e, q, d) && d.reasons == [] && d.evidenceDigest == ZERO_DIGEST && d.candidates == [] && d.kind == kind
    ensures Refusal(env, e, q, Conclude(d, assertion, outcome, [code]), kind, assertion, outcome, [code], d.attemptSeq, d.attemptId)
  {
    hide Conclude;
    Concluded(d, assertion, outcome, [code]);
  }

  /** The gate is open exactly when nothing stands in the way, and otherwise refuses for the first thing that does. */
  lemma GateOpensExactlyWhen(env: Env, e: EngineState, q: FailoverRequest)
    ensures FailoverGate(env, e, q).Open? <==> Passes(env, e, q)
    ensures FailoverGate(env, e, q).Shut? ==> TurnsAway(env, e, q, FailoverGate(env, e, q).decision, FailoverGate(env, e, q).durable)
  {
    hide FailoverGate, Passes, TurnsAway;
    GateIsOpen(env, e, q);
    GateTurnsAway(env, e, q);
  }

  lemma GateIsOpen(env: Env, e: EngineState, q: FailoverRequest)
    ensures FailoverGate(env, e, q).Open? <==> Passes(env, e, q)
  {
    hide Agrees, Complaints, Latest, ActiveAuthority, Mismatches, CurrentAuthority, HoldsNow, OfRequest, NewestAt, HolderAt, Conclude, RequestDecision, Codes;
    var a := e.store.d.attempts;
    RequestVector(env, e, q);
    ComplaintsAre(env, e, q.subject, q.generation, q.expected);
    ActiveIsHolder(e.store.d, q);
    LatestIsNewest(a, q);
    forall i, k | NewestAt(a, q, i) && NewestAt(a, q, k) ensures i == k { OneNewest(a, q, i, k); }
    forall i | NewestAt(a, q, i) ensures Latest(a, q.subject, q.generation).Some? { NewestIsOf(a, q, i); }
  }

  lemma GateTurnsAway(env: Env, e: EngineState, q: FailoverRequest)
    ensures FailoverGate(env, e, q).Shut? ==> TurnsAway(env, e, q, FailoverGate(env, e, q).decision, FailoverGate(env, e, q).durable)
  {
    hide Agrees, Complaints, Latest, ActiveAuthority, Mismatches, CurrentAuthority, HoldsNow, OfRequest, NewestAt, HolderAt, Conclude, RequestDecision, Empty,
      Codes;
    var a := e.store.d.attempts;
    RequestIsEmpty(env, e, q);
    RequestVector(env, e, q);
    var d := RequestDecision(env, e, q);
    ComplaintsAre(env, e, q.subject, q.generation, q.expected);
    StaleCodes(Mismatches(q.expected, CurrentAuthority(env, e, q.subject, q.generation)));
    ActiveIsHolder(e.store.d, q);
    LatestIsNewest(a, q);
    var active := ActiveAuthority(e.store.d, q.subject, q.generation);
    var latest := Latest(a, q.subject, q.generation);
    EmptyWith(env, e, q, d, Refuse, 0, ZERO_DIGEST);
    RefusalIs(env, e, q, d.(kind := Refuse), Refuse, Eligibility, Outcome.Refused, POLICY_DISABLED);
    if active.Some? {
      EmptyWith(env, e, q, d, Refuse, active.value.seqno, active.value.attemptId);
      RefusalIs(env, e, q, d.(kind := Refuse, attemptSeq := active.value.seqno, attemptId := active.value.attemptId),
                Refuse, Observation, Outcome.Conflict, ALREADY_AUTHORITATIVE);
    }
    if latest.Some? {
      EmptyWith(env, e, q, d, DecisionKind.Indeterminate, latest.value.seqno, ZERO_DIGEST);
      RefusalIs(env, e, q, d.(kind := DecisionKind.Indeterminate, attemptSeq := latest.value.seqno), DecisionKind.Indeterminate, Observation,
                Outcome.Indeterminate, if latest.value.revalidated then BACKEND_UNKNOWN else REVALIDATION_REQUIRED);
    }
    EmptyStale(env, e, q, d, Mismatches(q.expected, CurrentAuthority(env, e, q.subject, q.generation)));
  }

  lemma RequestVector(env: Env, e: EngineState, q: FailoverRequest)
    ensures RequestDecision(env, e, q).authority == CurrentAuthority(env, e, q.subject, q.generation)
  {}

  lemma NewestIsOf(a: seq<AttemptRecord>, q: FailoverRequest, i: int)
    requires NewestAt(a, q, i)
    ensures a[i] in a && OfRequest(a[i], q)
  {}

  lemma StaleCodes(mismatches: seq<Reason>)
    ensures Codes([Because(STALE_AUTHORITY)] + mismatches) == [STALE_AUTHORITY] + Codes(mismatches)
  {}

  lemma EmptyWith(env: Env, e: EngineState, q: FailoverRequest, d: Decision, kind: DecisionKind, seqno: nat, id: Digest)
    requires Empty(env, e, q, d)
    ensures Empty(env, e, q, d.(kind := kind)) && Empty(env, e, q, d.(kind := kind, attemptSeq := seqno, attemptId := id))
    ensures Empty(env, e, q, d.(kind := kind, attemptSeq := seqno))
  {}

  lemma EmptyStale(env: Env, e: EngineState, q: FailoverRequest, d: Decision, mismatches: seq<Reason>)
    requires Empty(env, e, q, d)
    ensures Empty(env, e, q, d.(kind := DecisionKind.Indeterminate, assertion := Observation, outcome := Outcome.Stale,
                                reasons := [Because(STALE_AUTHORITY)] + mismatches))
  {}
}
