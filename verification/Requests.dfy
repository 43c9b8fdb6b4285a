/** What a failover request is answered, case by case, and what it leaves in the attempt table. */
module Requests {
  import opened Basics
  import opened Reasons
  import opened Records
  import opened Lineage
  import opened Table
  import opened Invariant
  import opened StoreSafety
  import opened Protocol
  import opened EngineSafety
  import opened EngineCalls
  import opened Answers
  import opened Gate
  import opened Outcomes
  import Evidence
  import Grants
  import Verdicts
  import Resolution
  import Selector
  import Sorting

  // ---- how a decision is settled ----

  /** Told and not written; the store is as it was. */
  ghost predicate ToldAs(e: EngineState, f: EngineState, reply: Reply, d: Decision) {
    && f.store == e.store && reply.Decided? && !reply.decision.durable
    && reply.decision == d.(decisionId := reply.decision.decisionId, durable := false)
  }

  /** Committed under its place in the lineage, or else it says that it was not. */
  ghost predicate SettledAs(e: EngineState, f: EngineState, reply: Reply, d: Decision) {
    && reply.Decided? && Written(reply.decision, d)
    && (reply.decision.durable ==> e.store.d.lastSeq < reply.decision.lineageSeq <= f.store.d.lastSeq)
    && (!reply.decision.durable ==> f.storeFailed)
  }

  /** Settled after the attempt it is about was written; or that could not be. */
  ghost predicate SettledAfter(e: EngineState, f: EngineState, reply: Reply, d: Decision) {
    SettledAs(e, f, reply, d) || Unwritten(e, f, reply)
  }

  lemma UndurableIsTold(env: Env, e: EngineState, d: Decision)
    requires !d.durable
    ensures ToldAs(e, SettleUndurable(env, e, d).0, SettleUndurable(env, e, d).1, d)
  {
    hide Remember;
    var settled := d.(durable := false);
    RememberStore(e, settled.(decisionId := env.h.decision(settled)));
  }

  lemma IndexMoves(env: Env, e: EngineState, d: Decision, key: Digest)
    ensures CommitIdempotency(env, e, d, key).store.d.lastSeq >= e.store.d.lastSeq
    ensures e.storeFailed ==> CommitIdempotency(env, e, d, key).storeFailed
  {
    hide Commit, EntryFor;
    CommitMoves(e.store, IdempotencyIndex(EntryFor(d, key)));
  }

  lemma CompactionKeepsFailure(e: EngineState)
    ensures e.storeFailed ==> MaybeCheckpoint(e).storeFailed
  {
    hide Checkpoint;
  }

  lemma DurableIsSettled(env: Env, e: EngineState, d: Decision, key: Digest)
    ensures SettledAs(e, SettleDurable(env, e, d, key).0, SettleDurable(env, e, d, key).1, d)
  {
    hide CommitDecision, CommitIdempotency, MaybeCheckpoint, Written;
    DecisionIsWritten(env, e, d);
    var (decided, written) := CommitDecision(env, e, d);
    IndexMoves(env, decided, written, key);
    CompactionKeepsPosition(CommitIdempotency(env, decided, written, key));
    CompactionKeepsFailure(CommitIdempotency(env, decided, written, key));
  }

  // ---- what the request is decided on ----

  /** The state in which a request is decided: the one it found, a tick later. */
  function Ticked(e: EngineState): EngineState { e.(tick := e.tick + 1) }

  ghost function Verdict(e: EngineState, q: FailoverRequest): Verdicts.FailureVerdict {
    Verdicts.EvaluateFailure(e.book, Verdicts.Viewpoint(e.incarnation, e.tick, e.store.d.policy, e.store.d.topology.generation), q.subject, q.generation)
  }

  function Count(e: EngineState, q: FailoverRequest): nat { CountOf(e.store.d.attempts, q.subject, q.generation) }

  function NextId(env: Env, e: EngineState, q: FailoverRequest): Digest {
    env.h.attempt(e.options.fabric, q.subject, q.generation, Count(e, q) + 1)
  }

  /** The selection's input: the request's alternates as they resolve now, under the least capacity that the policy asks for. */
  ghost predicate InputOf(e: EngineState, q: FailoverRequest, link: LinkDefinition, input: Selector.Input) {
    var p := e.store.d.policy;
    && input.subject == q.subject && input.policy == p
    && input.minCapacity == (if p.requireSubjectCapacity then Max(p.minReplacementCapacity, link.capacity) else p.minReplacementCapacity)
    && multiset(input.candidates)
       == multiset(Resolution.ResolveAll(e.book, Verdicts.Viewpoint(e.incarnation, e.tick, p, e.store.d.topology.generation),
                                         e.store.d.topology.links, q.candidates))
  }

  lemma SelectionInputMeans(e: EngineState, q: FailoverRequest, link: LinkDefinition)
    ensures InputOf(e, q, link, SelectionInput(e, q, link))
  {
    hide Resolution.Resolve, Sorting.Sort;
    Sorting.SortHolds(Resolution.ResolveAll(e.book, Viewpoint(e), e.store.d.topology.links, q.candidates), ResolvedLess);
  }

  // ---- what may be decided ----

  /** Failure is not established: refused if the evidence says the subject works, and undetermined otherwise. */
  predicate Unestablished(env: Env, e: EngineState, q: FailoverRequest, d: Decision, outcome: Outcome, reason: nat, extra: seq<Reason>) {
    && Says(d, if outcome == Outcome.Refused then Refuse else DecisionKind.Indeterminate, Observation, outcome, [reason] + Codes(extra))
    && Empty(env, e, q, d) && d.attemptSeq == Count(e, q) + 1
    && d.attemptId == (if Count(e, q) < e.store.d.policy.maxAttempts then NextId(env, e, q) else ZERO_DIGEST)
    && d.evidenceDigest == ZERO_DIGEST && d.candidates == [] && !d.durable
  }

  /** No alternate is selected: refused if that is certain, and undetermined otherwise. */
  predicate Unselected(env: Env, e: EngineState, q: FailoverRequest, d: Decision, o: Selector.Selection, digest: Digest) {
    && Empty(env, e, q, d) && d.attemptSeq == Count(e, q) + 1 && d.attemptId == NextId(env, e, q)
    && d.evidenceDigest == digest && d.candidates == o.assessments && !d.durable
    && match o.status
       case ProvenInfeasible => Says(d, Refuse, Eligibility, Outcome.Refused, [CERTIFIED_INFEASIBLE, NO_ELIGIBLE_REPLACEMENT])
       case EmptyCandidateSet => Says(d, Refuse, Eligibility, Outcome.Refused, [CANDIDATE_SET_EMPTY])
       case _ => Says(d, DecisionKind.Indeterminate, Eligibility, Outcome.Indeterminate, [SELECTION_INDETERMINATE])
  }

  /** An alternate is selected but the pair's attempts are used up. */
  predicate UsedUp(env: Env, e: EngineState, q: FailoverRequest, d: Decision, o: Selector.Selection, digest: Digest) {
    && Says(d, Refuse, Eligibility, Outcome.Refused, [ATTEMPTS_EXHAUSTED]) && Empty(env, e, q, d)
    && d.attemptSeq == 0 && d.attemptId == ZERO_DIGEST && d.evidenceDigest == digest && d.candidates == o.assessments && !d.durable
  }

  /** The grant: the selected alternate, the next sequence, and a vector of what is in force and of the evidence cited. */
  predicate Granted(env: Env, e: EngineState, q: FailoverRequest, d: Decision, o: Selector.Selection, v: Verdicts.FailureVerdict) {
    && v.Established? && o.selectedIndex.Some? && o.selectedIndex.value < |o.assessments|
    && var chosen := o.assessments[o.selectedIndex.value];
       && Says(d, Grant, Authorization, Outcome.Ok, [SELECTED_HIGHEST_OBJECTIVE, Reasons.FENCED]) && OnRequest(e, q, d)
       && d.hasReplacement && d.replacement == chosen.candidate && d.replacementGeneration == chosen.generation
       && d.attemptSeq == Count(e, q) + 1 && d.attemptId == NextId(env, e, q) && d.evidenceDigest == v.digest && d.candidates == o.assessments && !d.durable
       && d.authority == InForce(env, e, q).(replacement := chosen.candidate, replacementGeneration := chosen.generation,
                                             evidencePublisher := v.publisher, publisherIncarnation := v.incarnation, publisherSeq := v.seqno,
                                             attemptSeq := Count(e, q) + 1, evidenceDigest := v.digest)
  }

  /** A declined request within the budget is settled after its attempt; beyond it, told with that reason added. */
  ghost predicate DeclinedAs(e: EngineState, f: EngineState, reply: Reply, q: FailoverRequest, d: Decision) {
    if Count(e, q) < e.store.d.policy.maxAttempts then SettledAfter(e, f, reply, d)
    else ToldAs(e, f, reply, d.(reasons := d.reasons + [Because(ATTEMPTS_EXHAUSTED)]))
  }

  /** What a request comes to that passed the gate, from the state a tick later. */
  ghost predicate EvidenceAnswered(env: Env, e: EngineState, q: FailoverRequest, link: LinkDefinition, f: EngineState, reply: Reply) {
    var v := Verdict(e, q);
    if v.NotEstablished? then exists d :: Unestablished(env, e, q, d, v.outcome, v.reason, v.extra) && DeclinedAs(e, f, reply, q, d)
    else
      exists input, o :: InputOf(e, q, link, input) && o == Selector.Select(input) && SelectionAnswered(env, e, q, o, v, f, reply)
  }

  ghost predicate SelectionAnswered(env: Env, e: EngineState, q: FailoverRequest, o: Selector.Selection, v: Verdicts.FailureVerdict, f: EngineState,
                                    reply: Reply)
    requires v.Established?
  {
    if !o.status.Selected? then exists d :: Unselected(env, e, q, d, o, v.digest) && DeclinedAs(e, f, reply, q, d)
    else if Count(e, q) >= e.store.d.policy.maxAttempts then exists d :: UsedUp(env, e, q, d, o, v.digest) && ToldAs(e, f, reply, d)
    else if Count(e, q) + 1 >= U64_LIMIT then f.store == e.store && reply == Failed(Outcome.Exhausted, ARITHMETIC_OVERFLOW)
    else exists d :: Granted(env, e, q, d, o, v) && SettledAfter(e, f, reply, d)
  }

  /** Every answer to a failover request. */
  ghost predicate RequestAnswered(env: Env, e: EngineState, q: FailoverRequest, f: EngineState, reply: Reply) {
    var entry := FindEntry(e.store.d.idempotency, q.key);
    var link := Find(e.store.d.topology.links, q.subject);
    if e.closed then f == e && reply == Failed(Outcome.Closed, SHUTDOWN)
    else if e.storeFailed then f == e && reply == Failed(Outcome.IoError, INTERNAL_ERROR)
    else if !WellFormed(e, q) then f.store == e.store && MalformedAnswer(e, q, reply)
    else if entry.Some? then f.store == e.store && Repeats(e, reply, entry.value)
    else if link.None? then f.store == e.store && reply == Failed(Outcome.NotFound, UNKNOWN_LINK)
    else if link.value.generation != q.generation then f.store == e.store && reply == Failed(Outcome.Stale, SUBJECT_GENERATION_MISMATCH)
    else if !Passes(env, e, q) then
      exists d, durable :: TurnsAway(env, e, q, d, durable) && if durable then SettledAs(e, f, reply, d) else ToldAs(e, f, reply, d)
    else EvidenceAnswered(env, Ticked(e), q, link.value, f, reply)
  }

  // ---- the proofs ----

  lemma UnestablishedIs(env: Env, e: EngineState, q: FailoverRequest, outcome: Outcome, reason: nat, extra: seq<Reason>)
    ensures Unestablished(env, e, q, UnestablishedDecision(env, e, q, outcome, reason, extra), outcome, reason, extra)
  {
    hide CountOf;
    assert Codes([Because(reason)] + extra) == [reason] + Codes(extra);
  }

  lemma UnselectedIs(env: Env, e: EngineState, q: FailoverRequest, o: Selector.Selection, digest: Digest)
    requires !o.status.Selected?
    ensures Unselected(env, e, q, UnselectedDecision(env, e, q, o, digest), o, digest)
  {
    hide CountOf;
  }

  lemma UsedUpIs(env: Env, e: EngineState, q: FailoverRequest, o: Selector.Selection, digest: Digest)
    ensures UsedUp(env, e, q, Protocol.Conclude(RequestDecision(env, e, q).(candidates := o.assessments, evidenceDigest := digest, kind := Refuse),
                                                Eligibility, Outcome.Refused, [ATTEMPTS_EXHAUSTED]), o, digest)
  {
    Concluded(RequestDecision(env, e, q).(candidates := o.assessments, evidenceDigest := digest, kind := Refuse), Eligibility, Outcome.Refused,
              [ATTEMPTS_EXHAUSTED]);
  }

  lemma GrantedIs(env: Env, e: EngineState, q: FailoverRequest, o: Selector.Selection, v: Verdicts.FailureVerdict)
    requires v.Established? && o.selectedIndex.Some? && o.selectedIndex.value < |o.assessments|
    ensures Granted(env, e, q, GrantDecision(env, e, q, o, o.assessments[o.selectedIndex.value], v), o, v)
  {
    hide CountOf;
  }

  lemma DeclineSettles(env: Env, e: EngineState, q: FailoverRequest, d: Decision, digest: Digest)
    requires !d.durable
    ensures DeclinedAs(e, Decline(env, e, q, d, digest).0, Decline(env, e, q, d, digest).1, q, d)
  {
    hide Commit, SettleDurable, SettleUndurable, SettledAs, ToldAs, CountOf, DeclinedAttempt;
    UndurableIsTold(env, e, d.(reasons := d.reasons + [Because(ATTEMPTS_EXHAUSTED)]));
    var put := AttemptPut(Create, DeclinedAttempt(e, q, d, digest));
    CommitMoves(e.store, put);
    var recorded := Write(e, put);
    DurableIsSettled(env, recorded, d, q.key);
    SettledLater(e, recorded, SettleDurable(env, recorded, d, q.key).0, SettleDurable(env, recorded, d, q.key).1, d);
  }

  lemma SettledLater(e: EngineState, f: EngineState, g: EngineState, reply: Reply, d: Decision)
    requires e.store.d.lastSeq <= f.store.d.lastSeq && SettledAs(f, g, reply, d)
    ensures SettledAs(e, g, reply, d)
  {}

  lemma GrantSettles(env: Env, e: EngineState, q: FailoverRequest, d: Decision)
    ensures SettledAfter(e, GrantAuthority(env, e, q, d).0, GrantAuthority(env, e, q, d).1, d)
  {
    hide Commit, SettleDurable, SettledAs, GrantedAttempt;
    var attempt := GrantedAttempt(e, q, d);
    CommitMoves(e.store, AttemptPut(Create, attempt));
    var staged := Write(e, AttemptPut(Create, attempt));
    var authorized := Write(staged, AttemptPut(Update, attempt.(phase := Authorized)));
    CommitMoves(staged.store, AttemptPut(Update, attempt.(phase := Authorized)));
    DurableIsSettled(env, authorized, d, q.key);
    SettledLater(e, authorized, SettleDurable(env, authorized, d, q.key).0, SettleDurable(env, authorized, d, q.key).1, d);
  }

  lemma SelectionAnswers(env: Env, e: EngineState, q: FailoverRequest, input: Selector.Input, v: Verdicts.FailureVerdict)
    requires v.Established? && Selector.Acceptable(input, Selector.Select(input))
    ensures SelectionAnswered(env, e, q, Selector.Select(input), v, Grantable(env, e, q, input, v).0, Grantable(env, e, q, input, v).1)
  {
    hide Selector.Select, Selector.NamesInput, Decline, SettleUndurable, GrantAuthority, GrantDecision, Unselected, UsedUp, Granted, DeclinedAs, ToldAs,
      SettledAfter, CountOf, Selector.Maximal;
    var o := Selector.Select(input);
    if !o.status.Selected? {
      UnselectedIs(env, e, q, o, v.digest);
      UnselectedUndurable(env, e, q, o, v.digest);
      DeclineSettles(env, e, q, UnselectedDecision(env, e, q, o, v.digest), v.digest);
    } else {
      Selector.AcceptableIndex(input, o);
      var d := Protocol.Conclude(RequestDecision(env, e, q).(candidates := o.assessments, evidenceDigest := v.digest, kind := Refuse),
                                 Eligibility, Outcome.Refused, [ATTEMPTS_EXHAUSTED]);
      UsedUpIs(env, e, q, o, v.digest);
      UndurableIsTold(env, e, d);
      assert Selector.NamesInput(input, o.assessments[o.selectedIndex.value]);
      GrantedIs(env, e, q, o, v);
      GrantSettles(env, e, q, GrantDecision(env, e, q, o, o.assessments[o.selectedIndex.value], v));
    }
  }

  lemma UnselectedUndurable(env: Env, e: EngineState, q: FailoverRequest, o: Selector.Selection, digest: Digest)
    ensures !UnselectedDecision(env, e, q, o, digest).durable
  {
    hide CountOf;
  }

  lemma EvidenceAnswers(env: Env, e: EngineState, q: FailoverRequest, link: LinkDefinition)
    requires FailoverGate(env, e, q).Open? && RequestFault(e, q).None?
    ensures EvidenceAnswered(env, e, q, link, DecideBound(env, e, q, link).0, DecideBound(env, e, q, link).1)
  {
    hide FailoverGate, RequestFault, Verdicts.EvaluateFailure, SelectionInput, InputOf, Decline, Grantable, Unestablished, DeclinedAs, SelectionAnswered,
      Selector.Select, Selector.Acceptable, CountOf;
    match Verdicts.EvaluateFailure(e.book, Viewpoint(e), q.subject, q.generation) {
      case NotEstablished(outcome, reason, extra) =>
        var d := UnestablishedDecision(env, e, q, outcome, reason, extra);
        UnestablishedIs(env, e, q, outcome, reason, extra);
        DeclineSettles(env, e, q, d, ZERO_DIGEST);
      case Established(p, i, n, digest) =>
        var input := SelectionInput(e, q, link);
        SelectionInputMeans(e, q, link);
        Grants.SelectionAlwaysPasses(env, e, q, link);
        SelectionAnswers(env, e, q, input, Verdicts.Established(p, i, n, digest));
    }
  }

  /**
   * Every answer to a failover request, in the terms of the state it found: its form, its replay, its
   * definition, each thing that stands in its way, what the evidence establishes, what is selected,
   * and the grant.
   */
  lemma RequestAnswers(env: Env, e: EngineState, q: FailoverRequest)
    ensures RequestAnswered(env, e, q, RequestFailover(env, e, q).0, RequestFailover(env, e, q).1)
  {
    hide RequestFault, FindEntry, FailoverGate, DecideBound, ReplayDecision, Repeats, WellFormed, MalformedAnswer, Passes, TurnsAway, EvidenceAnswered,
      SettledAs, ToldAs;
    var t := Ticked(e);
    FormTicks(e, q);
    FormIsChecked(t, q);
    PassesTicks(env, e, q);
    GateOpensExactlyWhen(env, t, q);
    var entry := FindEntry(e.store.d.idempotency, q.key);
    if entry.Some? { RepeatsNow(e, t, entry.value); }
    var link := Find(e.store.d.topology.links, q.subject);
    if !e.closed && !e.storeFailed && RequestFault(t, q).None? && entry.None? && link.Some? && link.value.generation == q.generation {
      if FailoverGate(env, t, q).Open? {
        EvidenceAnswers(env, t, q, link.value);
      } else {
        GateAnswers(env, e, q, link.value);
      }
    }
  }

  lemma FormTicks(e: EngineState, q: FailoverRequest)
    ensures WellFormed(Ticked(e), q) == WellFormed(e, q)
    ensures forall reply :: MalformedAnswer(Ticked(e), q, reply) == MalformedAnswer(e, q, reply)
  {
    hide Misplaced, MisplacedAnswer;
  }

  lemma PassesTicks(env: Env, e: EngineState, q: FailoverRequest)
    ensures Passes(env, Ticked(e), q) == Passes(env, e, q)
    ensures forall d, durable :: TurnsAway(env, Ticked(e), q, d, durable) == TurnsAway(env, e, q, d, durable)
  {
    hide HoldsNow, OfRequest, NewestAt, HolderAt, Unmet, Says;
  }

  lemma GateAnswers(env: Env, e: EngineState, q: FailoverRequest, link: LinkDefinition)
    requires FailoverGate(env, Ticked(e), q).Shut?
    ensures var (f, reply) := DecideBound(env, Ticked(e), q, link);
            exists d, durable :: TurnsAway(env, e, q, d, durable) && if durable then SettledAs(e, f, reply, d) else ToldAs(e, f, reply, d)
  {
    hide FailoverGate, SettleDurable, SettleUndurable, TurnsAway, Passes;
    var t := Ticked(e);
    var gate := FailoverGate(env, t, q);
    GateOpensExactlyWhen(env, t, q);
    PassesTicks(env, e, q);
    GateUndurable(env, t, q);
    DurableIsSettled(env, t, gate.decision, q.key);
    UndurableIsTold(env, t, gate.decision);
    var (f, reply) := DecideBound(env, t, q, link);
    assert if gate.durable then SettledAs(e, f, reply, gate.decision) else ToldAs(e, f, reply, gate.decision);
  }

  lemma GateUndurable(env: Env, e: EngineState, q: FailoverRequest)
    requires FailoverGate(env, e, q).Shut?
    ensures !FailoverGate(env, e, q).decision.durable
  {
    hide Latest, ActiveAuthority, Mismatches;
  }

  // ---- what a request leaves in the table ----

  /** The request gets past its gate and is declined on its evidence, within the budget. */
  ghost predicate DeclinesOnEvidence(env: Env, e: EngineState, q: FailoverRequest) {
    var link := Find(e.store.d.topology.links, q.subject);
    && !e.closed && !e.storeFailed && WellFormed(e, q) && FindEntry(e.store.d.idempotency, q.key).None?
    && Defines(e.store.d.topology, q.subject, q.generation) && Passes(env, e, q) && Count(e, q) < e.store.d.policy.maxAttempts
    && (Verdict(e, q).NotEstablished? || !Selector.Select(SelectionInput(e, q, link.value)).status.Selected?)
  }

  /** The attempt that a declined request leaves: ended where it began, with nothing granted. */
  predicate EndedAtOnce(r: AttemptRecord, e: EngineState, q: FailoverRequest, d: Decision) {
    && Carries(r, e, q, d) && r.phase == (if d.kind == Refuse then Phase.Refused else Phase.Indeterminate)
    && r.replacement == NO_LINK && r.replacementGeneration == 0 && r.authority == NO_AUTHORITY && r.predecessor.None?
  }

  /**
   * What a request does to the attempt table: a grant adds an authorized attempt, a request declined
   * on its evidence within the budget adds one that ended at once, and any other adds and changes
   * nothing - whatever it is answered.
   */
  lemma RequestOutcome(env: Env, e: EngineState, h: History, q: FailoverRequest)
    requires EngineInv(env, e, h) && HasRoom(env, e, q) && !Grants.GrantsAnew(RequestFailover(env, e, q).1)
    ensures var (f, reply) := RequestFailover(env, e, q);
            && (DeclinesOnEvidence(env, Ticked(e), q) && reply.Decided? ==>
                  exists r :: Becomes(e.store.d.attempts, f.store.d.attempts, r) && EndedAtOnce(r, e, q, reply.decision))
            && (!DeclinesOnEvidence(env, Ticked(e), q) && reply.Decided? ==> f.store.d.attempts == e.store.d.attempts)
  {
    hide EngineInv, RequestFault, FindEntry, FailoverGate, DecideBound, ReplayDecision, WellFormed, MalformedAnswer, Passes, TurnsAway, Verdict,
      Selector.Select, SelectionInput, Becomes, EndedAtOnce, NextFits, Count, CountOf;
    var t := Ticked(e);
    TickKeeps(env, e, h);
    FormIsChecked(t, q);
    GateOpensExactlyWhen(env, t, q);
    GateTicks(env, e, q);
    var link := Find(e.store.d.topology.links, q.subject);
    if !e.closed && !e.storeFailed && RequestFault(t, q).None? && FindEntry(e.store.d.idempotency, q.key).None? && link.Some?
       && link.value.generation == q.generation
    {
      BoundOutcome(env, t, h, q, link.value);
      DeclineTicks(e, q);
    }
  }

  lemma DeclineTicks(e: EngineState, q: FailoverRequest)
    ensures forall r, d :: EndedAtOnce(r, e, q, d) == EndedLately(r, Ticked(e), q, d)
  {}

  /** The same from the state a tick later. */
  predicate EndedLately(r: AttemptRecord, t: EngineState, q: FailoverRequest, d: Decision) {
    t.tick > 0 && EndedAtOnce(r, t.(tick := t.tick - 1), q, d)
  }

  lemma BoundOutcome(env: Env, t: EngineState, h: History, q: FailoverRequest, link: LinkDefinition)
    requires EngineInv(env, t, h) && t.tick > 0 && (NextFits(t, q) || FailoverGate(env, t, q).Shut?) && Defines(t.store.d.topology, q.subject, q.generation)
    requires !Grants.GrantsAnew(DecideBound(env, t, q, link).1)
    ensures var (f, reply) := DecideBound(env, t, q, link);
            var declines := FailoverGate(env, t, q).Open? && Count(t, q) < t.store.d.policy.maxAttempts
                            && (Verdict(t, q).NotEstablished? || !Selector.Select(SelectionInput(t, q, link)).status.Selected?);
            && (declines && reply.Decided? ==>
                  exists r :: Becomes(t.store.d.attempts, f.store.d.attempts, r) && EndedLately(r, t, q, reply.decision))
            && (!declines && reply.Decided? ==> f.store.d.attempts == t.store.d.attempts)
  {
    hide EngineInv, FailoverGate, SettleDurable, SettleUndurable, Decline, Grantable, SelectionInput, Verdicts.EvaluateFailure, Becomes, EndedLately, CountOf,
      Defines, NextFits, Selector.Select;
    var gate := FailoverGate(env, t, q);
    if gate.Shut? {
      DurableLeaves(env, t, h, gate.decision, q.key);
      UndurableLeaves(env, t, gate.decision);
    } else {
      match Verdicts.EvaluateFailure(t.book, Viewpoint(t), q.subject, q.generation) {
        case NotEstablished(outcome, reason, extra) =>
          var d := UnestablishedDecision(env, t, q, outcome, reason, extra);
          UnestablishedIs(env, t, q, outcome, reason, extra);
          UnestablishedNext(env, t, q, d, outcome, reason, extra);
          DeclineOutcome(env, t, h, q, d, ZERO_DIGEST);
        case Established(p, i, n, digest) =>
          SelectionOutcome(env, t, h, q, SelectionInput(t, q, link), Verdicts.Established(p, i, n, digest));
      }
    }
  }

  lemma UnestablishedNext(env: Env, t: EngineState, q: FailoverRequest, d: Decision, outcome: Outcome, reason: nat, extra: seq<Reason>)
    requires Unestablished(env, t, q, d, outcome, reason, extra)
    ensures d.attemptSeq == Count(t, q) + 1 && d.evidenceDigest == ZERO_DIGEST
  {
    hide CountOf;
  }

  lemma SelectionOutcome(env: Env, t: EngineState, h: History, q: FailoverRequest, input: Selector.Input, v: Verdicts.FailureVerdict)
    requires EngineInv(env, t, h) && t.tick > 0 && FailoverGate(env, t, q).Open? && NextFits(t, q) && Defines(t.store.d.topology, q.subject, q.generation)
    requires v.Established? && !Grants.GrantsAnew(Grantable(env, t, q, input, v).1)
    ensures var (f, reply) := Grantable(env, t, q, input, v);
            var declines := Count(t, q) < t.store.d.policy.maxAttempts && !Selector.Select(input).status.Selected?;
            && (declines && reply.Decided? ==>
                  exists r :: Becomes(t.store.d.attempts, f.store.d.attempts, r) && EndedLately(r, t, q, reply.decision))
            && (!declines && reply.Decided? ==> f.store.d.attempts == t.store.d.attempts)
  {
    hide EngineInv, FailoverGate, Decline, SettleUndurable, GrantAuthority, Selector.Select, Selector.Acceptable, Selector.NamesInput, GrantDecision,
      UnselectedDecision, Becomes, EndedLately, CountOf, Defines, NextFits;
    var o := Selector.Select(input);
    if Selector.Acceptable(input, o) {
      if !o.status.Selected? {
        var d := UnselectedDecision(env, t, q, o, v.digest);
        UnselectedIs(env, t, q, o, v.digest);
        UnselectedNext(env, t, q, d, o, v.digest);
        DeclineOutcome(env, t, h, q, d, v.digest);
      } else {
        Selector.AcceptableIndex(input, o);
        UndurableLeaves(env, t, Protocol.Conclude(RequestDecision(env, t, q).(candidates := o.assessments, evidenceDigest := v.digest, kind := Refuse),
                                                  Eligibility, Outcome.Refused, [ATTEMPTS_EXHAUSTED]));
        GrantDecides(env, t, q, o, v);
      }
    }
  }

  lemma UnselectedNext(env: Env, t: EngineState, q: FailoverRequest, d: Decision, o: Selector.Selection, digest: Digest)
    requires Unselected(env, t, q, d, o, digest)
    ensures d.attemptSeq == Count(t, q) + 1 && d.evidenceDigest == digest
  {
    hide CountOf;
  }

  /** A grant that is decided is one anew. */
  lemma GrantDecides(env: Env, t: EngineState, q: FailoverRequest, o: Selector.Selection, v: Verdicts.FailureVerdict)
    requires v.Established? && o.selectedIndex.Some? && o.selectedIndex.value < |o.assessments|
    ensures var reply := GrantAuthority(env, t, q, GrantDecision(env, t, q, o, o.assessments[o.selectedIndex.value], v)).1;
            reply.Decided? ==> Grants.GrantsAnew(reply)
  {
    hide Commit, SettleDurable, GrantedAttempt, GrantDecision;
    var d := GrantDecision(env, t, q, o, o.assessments[o.selectedIndex.value], v);
    Grants.GrantKind(env, t, q, o, o.assessments[o.selectedIndex.value], v);
    var staged := Write(t, AttemptPut(Create, GrantedAttempt(t, q, d)));
    Grants.DurableKind(env, Write(staged, AttemptPut(Update, GrantedAttempt(t, q, d).(phase := Authorized))), d, q.key);
  }

  lemma DurableLeaves(env: Env, t: EngineState, h: History, d: Decision, key: Digest)
    requires EngineInv(env, t, h)
    ensures SettleDurable(env, t, d, key).0.store.d.attempts == t.store.d.attempts
  {
    EngineInvMeans(env, t, h);
    SettleDurableCalm(env, t, h, d, key);
    hide EngineInv, StoreInv, SettleDurable, Safe;
  }

  lemma UndurableLeaves(env: Env, t: EngineState, d: Decision)
    ensures SettleUndurable(env, t, d).0.store == t.store
  {}

  lemma DeclineOutcome(env: Env, t: EngineState, h: History, q: FailoverRequest, d: Decision, digest: Digest)
    requires EngineInv(env, t, h) && t.tick > 0 && FailoverGate(env, t, q).Open? && NextFits(t, q) && Defines(t.store.d.topology, q.subject, q.generation)
    requires d.attemptSeq == Count(t, q) + 1 && d.evidenceDigest == digest
    ensures var (f, reply) := Decline(env, t, q, d, digest);
            if Count(t, q) < t.store.d.policy.maxAttempts then
              reply.Decided? ==> exists r :: Becomes(t.store.d.attempts, f.store.d.attempts, r) && EndedLately(r, t, q, reply.decision)
            else f.store.d.attempts == t.store.d.attempts
  {
    hide EngineInv, FailoverGate, Legal, StoreInv, Write, SettleDurable, SettleUndurable, CountOf, Defines, Becomes, EndedLately;
    UndurableLeaves(env, t, d.(reasons := d.reasons + [Because(ATTEMPTS_EXHAUSTED)]));
    if Count(t, q) < t.store.d.policy.maxAttempts {
      var r := DeclinedAttempt(t, q, d, digest);
      var put := AttemptPut(Create, r);
      EngineInvMeans(env, t, h);
      if !t.store.failed { CreateIsLegal(env, t, h, q, r); }
      PutBecomes(t, h, Create, r);
      PutSteps(env, t, h, Create, r);
      var recorded := Write(t, put);
      if !recorded.store.failed {
        DurableLeaves(env, recorded, h, d, q.key);
        Grants.DurableKind(env, recorded, d, q.key);
        DeclinedIs(t, q, d, digest, SettleDurable(env, recorded, d, q.key).1.decision);
      }
    }
  }

  lemma DeclinedIs(t: EngineState, q: FailoverRequest, d: Decision, digest: Digest, w: Decision)
    requires t.tick > 0 && d.evidenceDigest == digest
    requires w.kind == d.kind && w.attemptSeq == d.attemptSeq && w.attemptId == d.attemptId && w.evidenceDigest == d.evidenceDigest && d.reasons <= w.reasons
    ensures EndedLately(DeclinedAttempt(t, q, d, digest), t, q, w)
  {}
}
