/** The engine as the source builds it: one object over a store, whose public calls update it step by step. */
module EngineObject {
  import opened Basics
  import opened Reasons
  import opened Records
  import opened Sorting
  import opened Protocol
  import opened Store
  import Lineage
  import Table
  import Answers
  import Definitions
  import Directives
  import Evidence
  import Gate
  import Publishing
  import Requests
  import Resolution
  import Selector
  import Verdicts

  /** Drops every place of a table that a publisher filled, counting them. */
  method EraseFrom<V>(m: map<Evidence.Place, V>, p: Name) returns (rest: map<Evidence.Place, V>, erased: nat)
    ensures rest == Evidence.Forget(m, p) && erased == |Evidence.Holding(m, p)|
  {
    var todo := set x | x in m && x.publisher == p;
    rest, erased := m, 0;
    ghost var done: set<Evidence.Place> := {};
    while todo != {}
      invariant done !! todo && done + todo == Evidence.Holding(m, p)
      invariant rest == m - done && erased == |done|
      decreases |todo|
    {
      var x :| x in todo;
      rest := rest - {x};
      erased := erased + 1;
      todo, done := todo - {x}, done + {x};
    }
    assert done == Evidence.Holding(m, p);
  }

  class Engine {
    const env: Env
    const options: Options
    const store: LineageStore
    const incarnation: Incarnation
    const epoch: nat
    var tick: nat
    var decisions: seq<Decision>
    var publishers: map<Name, Evidence.Publisher>
    var failureEvidence: Evidence.Table<FailureReport>
    var replacementEvidence: Evidence.Table<ReplacementReport>
    var lastObservationSeq: map<Evidence.Place, nat>
    var evidenceEntries: int
    var closed: bool
    var storeFailed: bool

    ghost function View(): EngineState
      reads this, store
    {
      EngineState(options, store.View(), incarnation, epoch, tick, decisions,
                  Evidence.Book(publishers, failureEvidence, replacementEvidence, lastObservationSeq, evidenceEntries),
                  closed, storeFailed)
    }

    constructor (v: Env, o: Options, s: LineageStore, i: Incarnation, n: nat)
      ensures View() == EngineState(o, s.View(), i, n, 0, [], Evidence.EMPTY_BOOK, false, false)
      ensures env == v && store == s
    {
      env, options, store, incarnation, epoch := v, o, s, i, n;
      tick, decisions, publishers, failureEvidence, replacementEvidence := 0, [], map[], map[], map[];
      lastObservationSeq, evidenceEntries, closed, storeFailed := map[], 0, false, false;
    }

    // ---- observations ----

    method AdmitPublisher(stamp: Stamp) returns (status: Evidence.Status)
      modifies this`publishers, this`failureEvidence, this`replacementEvidence, this`lastObservationSeq, this`evidenceEntries
      ensures var (b, s) := Evidence.Admit(old(View()).book, stamp, tick, options.limits.evidence);
              View().book == b && status == s
    {
      var p := stamp.publisher;
      if p !in publishers {
        if |publishers| >= options.limits.evidence.maxPublishers {
          return Evidence.Fault(Outcome.Exhausted, LIMIT_EXCEEDED);
        }
        publishers := publishers[p := Evidence.Publisher(stamp.incarnation, stamp.epoch, 0, tick, 0)];
      } else if publishers[p].incarnation != stamp.incarnation {
        if stamp.epoch < publishers[p].epoch {
          return Evidence.Fault(Outcome.Stale, PUBLISHER_MISMATCH);
        }
        if stamp.epoch == publishers[p].epoch {
          return Evidence.Fault(Outcome.Conflict, PUBLISHER_MISMATCH);
        }
        publishers := publishers[p := publishers[p].(incarnation := stamp.incarnation, epoch := stamp.epoch)];
        var erased: nat;
        failureEvidence, erased := EraseFrom(failureEvidence, p);
        evidenceEntries := evidenceEntries - erased;
        replacementEvidence, erased := EraseFrom(replacementEvidence, p);
        evidenceEntries := evidenceEntries - erased;
        lastObservationSeq, erased := EraseFrom(lastObservationSeq, p);
      }
      return Evidence.Done;
    }

    /** The registers of an accepted observation. */
    method NoteAccepted(place: Evidence.Place, stamp: Stamp, replacing: bool)
      requires place.publisher in publishers
      modifies this`publishers, this`lastObservationSeq, this`evidenceEntries
      ensures View().book == Evidence.Accept(old(View()).book, place, stamp, replacing)
    {
      lastObservationSeq := lastObservationSeq[place := stamp.seqno];
      if !replacing {
        evidenceEntries := evidenceEntries + 1;
      }
      var known := publishers[place.publisher];
      publishers := publishers[place.publisher := known.(highestSeq := stamp.seqno, accepted := known.accepted + 1)];
    }

    method PublishFailureReport(r: FailureReport) returns (reply: Reply)
      modifies this
      ensures (View(), reply) == Publish(env, old(View()), Evidence.OfSubject(r))
      ensures Publishing.FailureReported(env, old(View()), r, View(), reply)
    {
      hide Evidence.Admit, Evidence.Accept, Publishing.FailureReported;
      Publishing.FailureReportOutcome(env, View(), r);
      if closed {
        return Failed(Outcome.Closed, SHUTDOWN);
      }
      if storeFailed {
        return Failed(Outcome.IoError, INTERNAL_ERROR);
      }
      if r.subject.fabric != options.fabric {
        return Failed(Outcome.NotFound, UNKNOWN_FABRIC);
      }
      if r.subject.link == [] || r.generation == 0 || r.topologyGeneration == 0 {
        return Failed(Outcome.Invalid, NULL_FIELD);
      }
      if r.stamp.publisher == [] || r.stamp.incarnation == ZERO_INCARNATION {
        return Failed(Outcome.Invalid, NULL_FIELD);
      }
      tick := tick + 1;
      ghost var before := View().book;
      var admitted := AdmitPublisher(r.stamp);
      if admitted.Fault? {
        Evidence.RefusedAdmits(before, r.stamp, tick, options.limits.evidence);
        return Failed(admitted.outcome, admitted.code);
      }
      Evidence.Admitted(before, r.stamp, tick, options.limits.evidence);
      var place := Evidence.Place(r.subject, r.stamp.publisher);
      if place in lastObservationSeq && lastObservationSeq[place] >= r.stamp.seqno {
        return Failed(Outcome.Stale, SESSION_SEQUENCE_REPLAYED);
      }
      var replacing := place in failureEvidence;
      if !replacing && evidenceEntries >= options.limits.evidence.maxEntries {
        return Failed(Outcome.Exhausted, LIMIT_EXCEEDED);
      }
      failureEvidence := failureEvidence[place := Evidence.Retained(r, env.h.failure(r), Evidence.Receipt(tick, epoch, incarnation))];
      NoteAccepted(place, r.stamp, replacing);
      return Done;
    }

    method PublishReplacementReport(r: ReplacementReport) returns (reply: Reply)
      modifies this
      ensures (View(), reply) == Publish(env, old(View()), Evidence.OfCandidate(r))
      ensures Publishing.ReplacementReported(env, old(View()), r, View(), reply)
    {
      hide Evidence.Admit, Evidence.Accept, Publishing.ReplacementReported;
      Publishing.ReplacementReportOutcome(env, View(), r);
      if closed {
        return Failed(Outcome.Closed, SHUTDOWN);
      }
      if storeFailed {
        return Failed(Outcome.IoError, INTERNAL_ERROR);
      }
      if r.candidate.fabric != options.fabric {
        return Failed(Outcome.NotFound, UNKNOWN_FABRIC);
      }
      if r.candidate.link == [] || r.generation == 0 || r.topologyGeneration == 0 {
        return Failed(Outcome.Invalid, NULL_FIELD);
      }
      if r.stamp.publisher == [] || r.stamp.incarnation == ZERO_INCARNATION {
        return Failed(Outcome.Invalid, NULL_FIELD);
      }
      tick := tick + 1;
      ghost var before := View().book;
      var admitted := AdmitPublisher(r.stamp);
      if admitted.Fault? {
        Evidence.RefusedAdmits(before, r.stamp, tick, options.limits.evidence);
        return Failed(admitted.outcome, admitted.code);
      }
      Evidence.Admitted(before, r.stamp, tick, options.limits.evidence);
      var place := Evidence.Place(r.candidate, r.stamp.publisher);
      if place in lastObservationSeq && lastObservationSeq[place] >= r.stamp.seqno {
        return Failed(Outcome.Stale, SESSION_SEQUENCE_REPLAYED);
      }
      var replacing := place in replacementEvidence;
      if !replacing && evidenceEntries >= options.limits.evidence.maxEntries {
        return Failed(Outcome.Exhausted, LIMIT_EXCEEDED);
      }
      replacementEvidence := replacementEvidence[place := Evidence.Retained(r, env.h.replacement(r), Evidence.Receipt(tick, epoch, incarnation))];
      NoteAccepted(place, r.stamp, replacing);
      return Done;
    }

    // ---- writing ----

    method WriteRecord(rec: Lineage.Record) returns (ok: bool)
      modifies this`storeFailed, store
      ensures View() == Write(old(View()), rec)
      ensures ok == !store.failed
    {
      hide Lineage.Commit;
      ok := store.CommitRecord(rec);
      if !ok {
        storeFailed := true;
      }
    }

    method RememberDecision(d: Decision)
      modifies this`decisions
      ensures View() == Remember(old(View()), d)
    {
      decisions := decisions + [d];
      if |decisions| > options.limits.maxDecisions {
        decisions := decisions[|decisions| - options.limits.maxDecisions..];
      }
    }

    method RecordDecision(d: Decision) returns (written: Decision)
      modifies this`storeFailed, store
      ensures (View(), written) == CommitDecision(env, old(View()), d)
    {
      hide Write;
      var ok := WriteRecord(Lineage.DecisionCommit(d));
      if !ok {
        return d.(durable := false, reasons := d.reasons + [Because(INTERNAL_ERROR)]);
      }
      written := d.(lineageSeq := store.state.lastSeq, durable := true);
      written := written.(decisionId := env.h.decision(written));
    }

    method RecordIdempotency(d: Decision, key: Digest)
      modifies this`storeFailed, store
      ensures View() == CommitIdempotency(env, old(View()), d, key)
    {
      hide Write;
      if key == ZERO_DIGEST || !d.durable {
        return;
      }
      var entry := EntryFor(d, key);
      if !env.fits(entry) {
        return;
      }
      var _ := WriteRecord(Lineage.IdempotencyIndex(entry));
    }

    method CompactIfDue()
      modifies this`storeFailed, store
      ensures View() == MaybeCheckpoint(old(View()))
    {
      hide Lineage.Checkpoint;
      if !options.enableSnapshot || options.snapshotEvery == 0 {
        return;
      }
      if store.state.recordCount == 0 {
        return;
      }
      if store.recordsSinceSnapshot < options.snapshotEvery {
        return;
      }
      var ok := store.TakeCheckpoint();
      if !ok {
        storeFailed := true;
      }
    }

    method Settle(d: Decision, key: Digest, durableAllowed: bool) returns (reply: Reply)
      modifies this`storeFailed, this`decisions, store
      ensures (View(), reply) == if durableAllowed then SettleDurable(env, old(View()), d, key) else SettleUndurable(env, old(View()), d)
    {
      hide CommitDecision, CommitIdempotency, MaybeCheckpoint, Remember;
      var final := d;
      if durableAllowed {
        final := RecordDecision(d);
        RecordIdempotency(final, key);
        CompactIfDue();
      } else {
        final := final.(durable := false);
        final := final.(decisionId := env.h.decision(final));
      }
      RememberDecision(final);
      return Decided(final);
    }

    /** What a failed commit over this store reports. */
    method FailureOf(wasFailed: bool, lastSeq: nat) returns (reply: Reply)
      ensures reply == Failed(if !wasFailed && lastSeq + 1 >= U64_LIMIT then Outcome.Exhausted else Outcome.IoError, INTERNAL_ERROR)
    {
      return Failed(if !wasFailed && lastSeq + 1 >= U64_LIMIT then Outcome.Exhausted else Outcome.IoError, INTERNAL_ERROR);
    }

    // ---- definitions ----

    /** Revokes and fences every attempt that holds authority. */
    method FenceActiveAuthorities(kind: FenceKind) returns (ok: bool)
      requires !store.failed
      modifies this`storeFailed, store
      ensures View() == RevokeAll(old(View()), kind, old(store.state.attempts))
      ensures ok == !store.failed
    {
      hide Write, RevokeAll, AddReason;
      var snapshot := store.state.attempts;
      assert snapshot[0..] == snapshot;
      for i := 0 to |snapshot|
        invariant !store.failed
        invariant RevokeAll(View(), kind, snapshot[i..]) == RevokeAll(old(View()), kind, snapshot)
      {
        var r := snapshot[i];
        RevokeStep(View(), kind, snapshot, i);
        if !HoldsAuthority(r.phase) {
          continue;
        }
        var updated := r.(phase := Aborted, reasons := AddReason(r.reasons, Because(FENCED)));
        var put := WriteRecord(Lineage.AttemptPut(Lineage.Update, updated));
        if !put {
          RevokeStops(View(), kind, snapshot[i + 1..]);
          return false;
        }
        var fenced := WriteRecord(Lineage.FencePut(FenceRecord(kind, r.subject, r.generation, r.seqno, epoch, incarnation, 0, [])));
        if !fenced {
          RevokeStops(View(), kind, snapshot[i + 1..]);
          return false;
        }
      }
      RevokeStops(View(), kind, snapshot[|snapshot|..]);
      return true;
    }

    method InstallDefinition(rec: Lineage.Record, kind: FenceKind) returns (reply: Reply)
      modifies this`storeFailed, store
      ensures (View(), reply) == Install(old(View()), rec, kind)
    {
      hide Write, RevokeAll, Lineage.Commit;
      var wasFailed, lastSeq := store.failed, store.state.lastSeq;
      var ok := WriteRecord(rec);
      if !ok {
        reply := FailureOf(wasFailed, lastSeq);
        return;
      }
      ok := FenceActiveAuthorities(kind);
      return if ok then Done else Failed(Outcome.IoError, INTERNAL_ERROR);
    }

    method SetPolicy(p: Policy) returns (reply: Reply)
      modifies this`storeFailed, store
      ensures (View(), reply) == Protocol.SetPolicy(env, old(View()), p)
      ensures Definitions.PolicyAnswered(env, old(View()), p, View(), reply)
    {
      hide Install, Definitions.PolicyAnswered;
      Definitions.PolicyAnswers(env, View(), p);
      if closed {
        return Failed(Outcome.Closed, SHUTDOWN);
      }
      if !ValidPolicy(p) {
        return Failed(Outcome.Invalid, POLICY_REJECTED);
      }
      var current := store.state.policy;
      if p.generation < current.generation {
        return Failed(Outcome.Stale, POLICY_GENERATION_MISMATCH);
      }
      if p.generation == current.generation {
        return if env.h.policy(p) == env.h.policy(current) then Done else Failed(Outcome.Conflict, POLICY_GENERATION_MISMATCH);
      }
      reply := InstallDefinition(Lineage.PolicyCommit(p), PolicyChanged);
    }

    method SetTopology(t: Topology) returns (reply: Reply)
      modifies this`storeFailed, store
      ensures (View(), reply) == Protocol.SetTopology(env, old(View()), t)
      ensures Definitions.TopologyAnswered(env, old(View()), t, View(), reply)
    {
      hide Install, TopologyFault, Sort, Definitions.TopologyAnswered;
      Definitions.TopologyAnswers(env, View(), t);
      if closed {
        return Failed(Outcome.Closed, SHUTDOWN);
      }
      var candidate := t.(links := Sort(t.links, DefinitionLess));
      var fault := TopologyFault(candidate);
      if fault.Some? {
        return Failed(fault.value.0, fault.value.1);
      }
      var current := store.state.topology;
      if candidate.generation < current.generation {
        return Failed(Outcome.Stale, TOPOLOGY_GENERATION_MISMATCH);
      }
      if candidate.generation == current.generation {
        return if env.h.topology(candidate) == env.h.topology(current) then Done else Failed(Outcome.Conflict, TOPOLOGY_GENERATION_MISMATCH);
      }
      reply := InstallDefinition(Lineage.TopologyCommit(candidate), TopologyChanged);
    }

    // ---- failover ----

    method CheckCandidates(q: FailoverRequest) returns (fault: Option<(Outcome, nat)>)
      ensures fault == CandidatesFault(options.fabric, q.subject, q.candidates)
    {
      hide CandidatesFault;
      var cs := q.candidates;
      NoCandidates(options.fabric, q.subject);
      assert cs[..0] == [];
      for i := 0 to |cs|
        invariant CandidatesFault(options.fabric, q.subject, cs[..i]).None?
      {
        CandidatesStep(options.fabric, q.subject, cs, i);
        var seen := false;
        for j := 0 to i
          invariant seen <==> exists k :: 0 <= k < j && cs[k].link == cs[i].link
        {
          if cs[j].link == cs[i].link {
            seen := true;
          }
        }
        SeenBefore(cs, i);
        if cs[i].link.fabric != options.fabric {
          FaultDecides(options.fabric, q.subject, cs, i + 1);
          return Some((Outcome.NotFound, UNKNOWN_FABRIC));
        }
        if cs[i].link == q.subject {
          FaultDecides(options.fabric, q.subject, cs, i + 1);
          return Some((Outcome.Invalid, REPLACEMENT_IS_SUBJECT));
        }
        if seen {
          FaultDecides(options.fabric, q.subject, cs, i + 1);
          return Some((Outcome.Invalid, INVALID_ARGUMENT));
        }
      }
      assert cs[..|cs|] == cs;
      return None;
    }

    method CheckRequest(q: FailoverRequest) returns (fault: Option<(Outcome, nat)>)
      ensures fault == RequestFault(View(), q)
    {
      hide CandidatesFault;
      if q.subject.fabric != options.fabric {
        return Some((Outcome.NotFound, UNKNOWN_FABRIC));
      }
      if q.subject.link == [] {
        return Some((Outcome.Invalid, NULL_FIELD));
      }
      if q.generation == 0 {
        return Some((Outcome.Invalid, UNKNOWN_GENERATION));
      }
      if |q.candidates| > options.limits.maxCandidates || |q.candidates| > store.state.policy.maxCandidates {
        return Some((Outcome.LimitExceeded, LIMIT_EXCEEDED));
      }
      fault := CheckCandidates(q);
    }

    method Authority(subject: LinkKey, generation: nat) returns (a: AuthorityVector)
      ensures a == CurrentAuthority(env, View(), subject, generation)
    {
      var d := store.state;
      a := NO_AUTHORITY.(
        fabric := options.fabric, subject := subject, subjectGeneration := generation,
        topologyGeneration := d.topology.generation, topologyDigest := env.h.topology(d.topology),
        policyGeneration := d.policy.generation, policyDigest := env.h.policy(d.policy),
        epoch := epoch, coordinator := incarnation);
    }

    method FreshDecision(subject: LinkKey, generation: nat) returns (d: Decision)
      ensures d == BaseDecision(View(), subject, generation)
    {
      d := Decision(ZERO_DIGEST, DecisionKind.Indeterminate, Nothing, Outcome.Indeterminate, options.fabric, subject, generation,
                    false, NO_LINK, 0, 0, ZERO_DIGEST, epoch, incarnation, NO_AUTHORITY, ZERO_DIGEST, 0, false, false, [], []);
    }

    /** The answer to a request whose key is in the index. */
    method Recall(entry: IdempotencyEntry) returns (d: Decision)
      ensures d == ReplayDecision(View(), entry)
    {
      d := FreshDecision(entry.subject, entry.generation);
      d := d.(kind := entry.kind, assertion := entry.assertion, outcome := entry.outcome, decisionId := entry.decisionId,
              hasReplacement := entry.hasReplacement, replacement := entry.replacement,
              replacementGeneration := entry.replacementGeneration, attemptSeq := entry.attemptSeq, lineageSeq := entry.seqno,
              durable := true, idempotentReplay := true, reasons := entry.reasons + [Because(IDEMPOTENT_REPLAY)]);
    }

    /** The refusals that come before any evidence. */
    method CheckGate(q: FailoverRequest) returns (gate: Protocol.Gate)
      ensures gate == FailoverGate(env, View(), q)
      ensures gate.Open? <==> Gate.Passes(env, View(), q)
      ensures gate.Shut? ==> Gate.TurnsAway(env, View(), q, gate.decision, gate.durable)
    {
      hide Lineage.Latest, Lineage.ActiveAuthority, Mismatches, CurrentAuthority, Gate.Passes, Gate.TurnsAway;
      Gate.GateOpensExactlyWhen(env, View(), q);
      var d := FreshDecision(q.subject, q.generation);
      var a := Authority(q.subject, q.generation);
      d := d.(authority := a);
      var mismatches := Mismatches(q.expected, d.authority);
      if mismatches != [] {
        return Shut(d.(kind := DecisionKind.Indeterminate, assertion := Observation, outcome := Outcome.Stale,
                       reasons := [Because(STALE_AUTHORITY)] + mismatches), false);
      }
      if !store.state.policy.failoverEnabled {
        return Shut(Conclude(d.(kind := Refuse), Eligibility, Outcome.Refused, [POLICY_DISABLED]), false);
      }
      var active := store.FindActiveAuthority(q.subject, q.generation);
      if active.Some? {
        return Shut(Conclude(d.(kind := Refuse, attemptSeq := active.value.seqno, attemptId := active.value.attemptId),
                             Observation, Outcome.Conflict, [ALREADY_AUTHORITATIVE]), false);
      }
      var latest := store.LatestAttempt(q.subject, q.generation);
      if latest.Some? && latest.value.phase.Interrupted? {
        return Shut(Conclude(d.(kind := DecisionKind.Indeterminate, attemptSeq := latest.value.seqno), Observation, Outcome.Indeterminate,
                             [if latest.value.revalidated then BACKEND_UNKNOWN else REVALIDATION_REQUIRED]), true);
      }
      return Open;
    }

    /** Records a refusal as an attempt, within the budget, and settles it. */
    method DeclineRequest(q: FailoverRequest, d: Decision, evidenceDigest: Digest) returns (reply: Reply)
      modifies this`storeFailed, this`decisions, store
      ensures (View(), reply) == Decline(env, old(View()), q, d, evidenceDigest)
    {
      hide Write, SettleDurable, SettleUndurable, Lineage.CountOf;
      var count := store.CountAttempts(q.subject, q.generation);
      if count >= store.state.policy.maxAttempts {
        reply := Settle(d.(reasons := d.reasons + [Because(ATTEMPTS_EXHAUSTED)]), q.key, false);
        return;
      }
      var record := AttemptRecord(q.subject, q.generation, d.attemptSeq, d.attemptId, q.key,
                                  if d.kind.Refuse? then Phase.Refused else Phase.Indeterminate,
                                  NO_LINK, 0, NO_AUTHORITY, evidenceDigest, tick, epoch, incarnation, 0, 0, None, ZERO_INCARNATION,
                                  false, Revalidation.Unknown, d.reasons);
      var wasFailed, lastSeq := store.failed, store.state.lastSeq;
      var ok := WriteRecord(Lineage.AttemptPut(Lineage.Create, record));
      if !ok {
        reply := FailureOf(wasFailed, lastSeq);
        return;
      }
      reply := Settle(d, q.key, true);
    }

    /** Stages, authorizes and decides a grant. */
    method GrantRequest(q: FailoverRequest, d: Decision) returns (reply: Reply)
      modifies this`storeFailed, this`decisions, store
      ensures (View(), reply) == GrantAuthority(env, old(View()), q, d)
    {
      hide Write, SettleDurable, SettleUndurable, Lineage.Latest;
      var previous := store.LatestAttempt(q.subject, q.generation);
      var attempt := AttemptRecord(q.subject, q.generation, d.attemptSeq, d.attemptId, q.key, Evaluated, d.replacement,
                                   d.replacementGeneration, d.authority, d.evidenceDigest, tick, epoch, incarnation, 0, 0, None,
                                   ZERO_INCARNATION, false, Revalidation.Unknown, d.reasons);
      if previous.Some? && HoldsAuthority(previous.value.phase) {
        attempt := attempt.(predecessor := Some(previous.value.attemptId));
      }
      var wasFailed, lastSeq := store.failed, store.state.lastSeq;
      var ok := WriteRecord(Lineage.AttemptPut(Lineage.Create, attempt));
      if !ok {
        reply := FailureOf(wasFailed, lastSeq);
        return;
      }
      wasFailed, lastSeq := store.failed, store.state.lastSeq;
      ok := WriteRecord(Lineage.AttemptPut(Lineage.Update, attempt.(phase := Authorized)));
      if !ok {
        reply := FailureOf(wasFailed, lastSeq);
        return;
      }
      reply := Settle(d, q.key, true);
    }

    method ResolveCandidates(q: FailoverRequest) returns (resolved: seq<Selector.Resolved>)
      ensures resolved == Resolution.ResolveAll(View().book, Viewpoint(View()), store.state.topology.links, q.candidates)
    {
      hide Resolution.Resolve;
      var book := Evidence.Book(publishers, failureEvidence, replacementEvidence, lastObservationSeq, evidenceEntries);
      var v := Verdicts.Viewpoint(incarnation, tick, store.state.policy, store.state.topology.generation);
      var links := store.state.topology.links;
      resolved := [];
      for i := 0 to |q.candidates|
        invariant resolved == Resolution.ResolveAll(book, v, links, q.candidates)[..i]
      {
        var entry := Resolution.ResolveCandidate(book, v, links, q.candidates[i]);
        resolved := resolved + [entry];
      }
    }

    /** The decision a bound request starts from. */
    method OpenDecision(q: FailoverRequest) returns (d: Decision)
      ensures d == RequestDecision(env, View(), q)
    {
      hide CurrentAuthority;
      d := FreshDecision(q.subject, q.generation);
      var a := Authority(q.subject, q.generation);
      d := d.(authority := a);
    }

    /** The decision when the selection chose nobody. */
    method ExplainSelection(q: FailoverRequest, o: Selector.Selection, digest: Digest, count: nat) returns (d: Decision)
      requires count == Lineage.CountOf(store.state.attempts, q.subject, q.generation)
      ensures d == UnselectedDecision(env, View(), q, o, digest)
    {
      hide CurrentAuthority, Lineage.CountOf, Listed;
      d := OpenDecision(q);
      d := d.(candidates := o.assessments, evidenceDigest := digest, assertion := Eligibility, attemptSeq := count + 1,
              attemptId := env.h.attempt(options.fabric, q.subject, q.generation, count + 1));
      match o.status
      case ProvenInfeasible =>
        d := d.(kind := Refuse, outcome := Outcome.Refused, reasons := Listed([CERTIFIED_INFEASIBLE, NO_ELIGIBLE_REPLACEMENT]));
      case EmptyCandidateSet =>
        d := d.(kind := Refuse, outcome := Outcome.Refused, reasons := Listed([CANDIDATE_SET_EMPTY]));
      case _ =>
        d := d.(kind := DecisionKind.Indeterminate, outcome := Outcome.Indeterminate, reasons := Listed([SELECTION_INDETERMINATE]));
    }

    /** The decision that grants the chosen alternate. */
    method DecideGrant(q: FailoverRequest, o: Selector.Selection, chosen: Assessment, v: Verdicts.FailureVerdict, count: nat) returns (d: Decision)
      requires v.Established? && count == Lineage.CountOf(store.state.attempts, q.subject, q.generation)
      ensures d == GrantDecision(env, View(), q, o, chosen, v)
    {
      hide CurrentAuthority, Lineage.CountOf, Listed;
      d := OpenDecision(q);
      var a := Authority(q.subject, q.generation);
      a := a.(replacement := chosen.candidate, replacementGeneration := chosen.generation, evidencePublisher := v.publisher,
              publisherIncarnation := v.incarnation, publisherSeq := v.seqno, attemptSeq := count + 1, evidenceDigest := v.digest);
      d := d.(candidates := o.assessments, evidenceDigest := v.digest, kind := Grant, assertion := Authorization, outcome := Outcome.Ok,
              hasReplacement := true, replacement := chosen.candidate, replacementGeneration := chosen.generation,
              attemptSeq := count + 1, attemptId := env.h.attempt(options.fabric, q.subject, q.generation, count + 1),
              reasons := Listed([SELECTED_HIGHEST_OBJECTIVE, FENCED]), authority := a);
    }

    /** Selects among the candidates once the failure is established, and grants if one is chosen. */
    method SelectAndGrant(q: FailoverRequest, link: LinkDefinition, v: Verdicts.FailureVerdict) returns (reply: Reply)
      requires v.Established?
      modifies this`storeFailed, this`decisions, store
      ensures (View(), reply) == Select(env, old(View()), q, link, v)
    {
      hide Decline, SettleUndurable, SettleDurable, GrantAuthority, Selector.Select, Selector.Acceptable, Selector.NamesInput,
        Lineage.CountOf, Resolution.ResolveAll, Sort, RequestDecision, UnselectedDecision, GrantDecision, Conclude,
        Selector.BestChoice, Selector.MayTakeOver;
      var resolved := ResolveCandidates(q);
      resolved := Sort(resolved, ResolvedLess);
      var policy := store.state.policy;
      var minCapacity := policy.minReplacementCapacity;
      if policy.requireSubjectCapacity && link.capacity > minCapacity {
        minCapacity := link.capacity;
      }
      var input := Selector.Input(q.subject, policy, minCapacity, resolved);
      var o := Selector.SelectReplacement(input);
      var valid := Selector.ValidateSelection(input, o);
      if !valid {
        return Failed(Outcome.Indeterminate, INTERNAL_ERROR);
      }
      if o.status.Selected? { Selector.AcceptableIndex(input, o); }
      var count := store.CountAttempts(q.subject, q.generation);
      var d: Decision;
      if !o.status.Selected? {
        d := ExplainSelection(q, o, v.digest, count);
        reply := DeclineRequest(q, d, v.digest);
        return;
      }
      if count >= policy.maxAttempts {
        d := OpenDecision(q);
        d := d.(candidates := o.assessments, evidenceDigest := v.digest, kind := Refuse);
        reply := Settle(Conclude(d, Eligibility, Outcome.Refused, [ATTEMPTS_EXHAUSTED]), q.key, false);
        return;
      }
      var chosen := o.assessments[o.selectedIndex.value];
      var named := Selector.FindNamed(input, chosen);
      if !named {
        return Failed(Outcome.Indeterminate, INTERNAL_ERROR);
      }
      if count + 1 >= U64_LIMIT {
        return Failed(Outcome.Exhausted, ARITHMETIC_OVERFLOW);
      }
      d := DecideGrant(q, o, chosen, v, count);
      reply := GrantRequest(q, d);
    }

    /** The decision when the failure is not established. */
    method ExplainVerdict(q: FailoverRequest, v: Verdicts.FailureVerdict) returns (d: Decision)
      requires v.NotEstablished?
      ensures d == UnestablishedDecision(env, View(), q, v.outcome, v.reason, v.extra)
    {
      hide RequestDecision, Lineage.CountOf;
      var count := store.CountAttempts(q.subject, q.generation);
      d := OpenDecision(q);
      d := d.(assertion := Observation, outcome := v.outcome, reasons := [Because(v.reason)] + v.extra,
              kind := if v.outcome.Refused? then Refuse else DecisionKind.Indeterminate, attemptSeq := count + 1,
              attemptId := ZERO_DIGEST);
      if count < store.state.policy.maxAttempts {
        d := d.(attemptId := env.h.attempt(options.fabric, q.subject, q.generation, count + 1));
      }
    }

    method Judge(q: FailoverRequest) returns (v: Verdicts.FailureVerdict)
      ensures v == Verdicts.EvaluateFailure(View().book, Viewpoint(View()), q.subject, q.generation)
    {
      hide Verdicts.EvaluateFailure;
      v := Verdicts.JudgeFailure(Evidence.Book(publishers, failureEvidence, replacementEvidence, lastObservationSeq, evidenceEntries),
                                 Verdicts.Viewpoint(incarnation, tick, store.state.policy, store.state.topology.generation),
                                 q.subject, q.generation);
    }

    method DecideRequest(q: FailoverRequest, link: LinkDefinition) returns (reply: Reply)
      modifies this`storeFailed, this`decisions, store
      ensures (View(), reply) == DecideBound(env, old(View()), q, link)
    {
      hide Decline, SettleUndurable, SettleDurable, FailoverGate, Select, Verdicts.EvaluateFailure, UnestablishedDecision;
      var gate := CheckGate(q);
      if gate.Shut? {
        reply := Settle(gate.decision, q.key, gate.durable);
        return;
      }
      var v := Judge(q);
      if v.NotEstablished? {
        var d := ExplainVerdict(q, v);
        reply := DeclineRequest(q, d, ZERO_DIGEST);
        return;
      }
      reply := SelectAndGrant(q, link, v);
    }

    method RequestFailover(q: FailoverRequest) returns (reply: Reply)
      modifies this, store
      ensures (View(), reply) == Protocol.RequestFailover(env, old(View()), q)
      ensures Requests.RequestAnswered(env, old(View()), q, View(), reply)
    {
      hide DecideBound, RequestFault, Lineage.FindEntry, ReplayDecision, Requests.RequestAnswered;
      Requests.RequestAnswers(env, View(), q);
      if closed {
        return Failed(Outcome.Closed, SHUTDOWN);
      }
      if storeFailed {
        return Failed(Outcome.IoError, INTERNAL_ERROR);
      }
      tick := tick + 1;
      var fault := CheckRequest(q);
      if fault.Some? {
        return Failed(fault.value.0, fault.value.1);
      }
      var replay := store.FindIdempotency(q.key);
      if replay.Some? {
        var d := Recall(replay.value);
        return Decided(d);
      }
      var link := Resolution.FindDefinition(store.state.topology.links, q.subject);
      if link.None? {
        return Failed(Outcome.NotFound, UNKNOWN_LINK);
      }
      if link.value.generation != q.generation {
        return Failed(Outcome.Stale, SUBJECT_GENERATION_MISMATCH);
      }
      reply := DecideRequest(q, link.value);
    }

    // ---- application and verification ----

    /** The decision about a recorded attempt. */
    method About(r: AttemptRecord, kind: DecisionKind, assertion: Assertion) returns (d: Decision)
      ensures d == DecisionAbout(View(), r, kind, assertion)
    {
      d := FreshDecision(r.subject, r.generation);
      d := d.(attemptSeq := r.seqno, attemptId := r.attemptId, authority := r.authority, hasReplacement := !r.replacement.Empty(),
              replacement := r.replacement, replacementGeneration := r.replacementGeneration, kind := kind, assertion := assertion);
    }

    /** Writes an updated attempt, then decides. */
    method PutAndSettle(kind: Lineage.PutKind, r: AttemptRecord, d: Decision, checkpoints: bool) returns (reply: Reply)
      modifies this`storeFailed, this`decisions, store
      ensures (View(), reply) == PutThenSettle(env, old(View()), kind, r, d, checkpoints)
    {
      hide Write, CommitDecision, MaybeCheckpoint, Remember;
      var wasFailed, lastSeq := store.failed, store.state.lastSeq;
      var ok := WriteRecord(Lineage.AttemptPut(kind, r));
      if !ok {
        reply := FailureOf(wasFailed, lastSeq);
        return;
      }
      var written := RecordDecision(d);
      if checkpoints {
        CompactIfDue();
      }
      RememberDecision(written);
      return Decided(written);
    }

    method RecordApplication(report: ApplicationReport) returns (reply: Reply)
      modifies this, store
      ensures (View(), reply) == Protocol.RecordApplication(env, old(View()), report)
      ensures Answers.ApplicationAnswered(old(View()), report, View(), reply)
    {
      hide Lineage.Lookup, SettleUndurable, SettleDurable, PutThenSettle, DecisionAbout, Conclude, AddReason, Answers.ApplicationAnswered;
      Answers.ApplicationAnswers(env, View(), report);
      if closed {
        return Failed(Outcome.Closed, SHUTDOWN);
      }
      if storeFailed {
        return Failed(Outcome.IoError, INTERNAL_ERROR);
      }
      tick := tick + 1;
      var found := store.FindAttempt(report.subject, report.attemptSeq);
      if found.None? {
        return Failed(Outcome.NotFound, ATTEMPT_UNKNOWN);
      }
      var r := found.value;
      if r.generation != report.generation {
        return Failed(Outcome.Stale, SUBJECT_GENERATION_MISMATCH);
      }
      if r.attemptId != report.attemptId {
        return Failed(Outcome.Conflict, ATTEMPT_UNKNOWN);
      }
      if report.applier == ZERO_INCARNATION {
        return Failed(Outcome.Invalid, WORKER_MISMATCH);
      }
      var d := About(r, Acknowledge, Acknowledgement);
      if Terminal(r.phase) {
        reply := Settle(Conclude(d, Acknowledgement, Outcome.Conflict,
                                 [if r.phase.Committed? || r.phase.RolledBack? then LATE_ACKNOWLEDGEMENT else ATTEMPT_COMPLETED]), [], false);
        return;
      }
      if r.phase.Evaluated? {
        reply := Settle(Conclude(d, Acknowledgement, Outcome.Conflict, [ATTEMPT_UNKNOWN]), [], false);
        return;
      }
      if r.phase.Acknowledged? || r.phase.Verified? {
        reply := Settle(Conclude(d, Acknowledgement, Outcome.Conflict, [DUPLICATE_COMPLETION]), [], false);
        return;
      }
      var updated := r;
      if !report.accepted {
        updated := r.(phase := Aborted, reasons := AddReason(r.reasons, Explained(BACKEND_REJECTED, report.detail)));
        d := Conclude(d, Acknowledgement, Outcome.Refused, [BACKEND_REJECTED]);
      } else {
        updated := r.(applierIncarnation := report.applier,
                      phase := if store.state.policy.requireVerifiedEffect then Acknowledged else Phase.Committed,
                      reasons := AddReason(r.reasons, Because(ACKNOWLEDGEMENT_NOT_EFFECT)));
        d := Conclude(d, Acknowledgement, Outcome.Ok, [ACKNOWLEDGEMENT_NOT_EFFECT]);
      }
      reply := PutAndSettle(if updated.phase.Committed? then Lineage.Completion else Lineage.Update, updated, d, true);
    }

    method RecordVerification(report: VerificationReport) returns (reply: Reply)
      modifies this, store
      ensures (View(), reply) == Protocol.RecordVerification(env, old(View()), report)
      ensures Answers.VerificationAnswered(old(View()), report, View(), reply)
    {
      hide Lineage.Lookup, SettleUndurable, SettleDurable, PutThenSettle, DecisionAbout, Conclude, AddReason, Write, Answers.VerificationAnswered;
      Answers.VerificationAnswers(env, View(), report);
      if closed {
        return Failed(Outcome.Closed, SHUTDOWN);
      }
      if storeFailed {
        return Failed(Outcome.IoError, INTERNAL_ERROR);
      }
      tick := tick + 1;
      var found := store.FindAttempt(report.subject, report.attemptSeq);
      if found.None? {
        return Failed(Outcome.NotFound, ATTEMPT_UNKNOWN);
      }
      var r := found.value;
      if r.attemptId != report.attemptId {
        return Failed(Outcome.Conflict, ATTEMPT_UNKNOWN);
      }
      var d := About(r, DecisionKind.Verify, Nothing);
      if r.phase.Committed? || r.phase.Verified? {
        reply := Settle(Conclude(d, VerifiedEffect, Outcome.Conflict, [DUPLICATE_COMPLETION]), [], false);
        return;
      }
      if !r.phase.Acknowledged? {
        reply := Settle(Conclude(d, Observation, Outcome.Conflict, [LATE_ACKNOWLEDGEMENT]), [], false);
        return;
      }
      if !report.effectObserved {
        var updated := r.(phase := Phase.Indeterminate, reasons := AddReason(r.reasons, Explained(EFFECT_UNVERIFIED, report.detail)));
        reply := PutAndSettle(Lineage.Update, updated, Conclude(d, Acknowledgement, Outcome.Indeterminate, [EFFECT_UNVERIFIED]), false);
        return;
      }
      var verified := r.(phase := Phase.Verified, reasons := AddReason(r.reasons, Explained(EFFECT_VERIFIED, report.detail)));
      var wasFailed, lastSeq := store.failed, store.state.lastSeq;
      var ok := WriteRecord(Lineage.AttemptPut(Lineage.Update, verified));
      if !ok {
        reply := FailureOf(wasFailed, lastSeq);
        return;
      }
      reply := PutAndSettle(Lineage.Completion, verified.(phase := Phase.Committed),
                            Conclude(d, VerifiedEffect, Outcome.Ok, [EFFECT_VERIFIED]), true);
    }

    // ---- rollback and revalidation ----

    /** Revokes an attempt: record, fence, decision, index. */
    method Revert(was: AttemptRecord, r: AttemptRecord, d: Decision, key: Digest) returns (reply: Reply)
      modifies this`storeFailed, this`decisions, store
      ensures (View(), reply) == RevertAuthority(env, old(View()), was, r, d, key)
    {
      hide Write, CommitDecision, CommitIdempotency, Remember;
      var wasFailed, lastSeq := store.failed, store.state.lastSeq;
      var ok := WriteRecord(Lineage.AttemptPut(Lineage.Rollback, r));
      if !ok {
        reply := FailureOf(wasFailed, lastSeq);
        return;
      }
      wasFailed, lastSeq := store.failed, store.state.lastSeq;
      ok := WriteRecord(Lineage.FencePut(FenceRecord(RollbackRevoked, was.subject, was.generation, was.seqno, epoch, incarnation, 0, [])));
      if !ok {
        reply := FailureOf(wasFailed, lastSeq);
        return;
      }
      var written := RecordDecision(d);
      RecordIdempotency(written, key);
      RememberDecision(written);
      return Decided(written);
    }

    method RequestRollback(q: RollbackRequest) returns (reply: Reply)
      modifies this, store
      ensures (View(), reply) == Protocol.RequestRollback(env, old(View()), q)
      ensures Answers.RollbackAnswered(env, old(View()), q, View(), reply)
    {
      hide Lineage.Lookup, Lineage.FindEntry, SettleUndurable, SettleDurable, RevertAuthority, DecisionAbout, Conclude, AddReason,
        ReplayDecision, CurrentAuthority, Mismatches, Answers.RollbackAnswered;
      Answers.RollbackAnswers(env, View(), q);
      if closed {
        return Failed(Outcome.Closed, SHUTDOWN);
      }
      tick := tick + 1;
      var replay := store.FindIdempotency(q.key);
      if replay.Some? {
        var repeat := Recall(replay.value);
        return Decided(repeat);
      }
      var found := store.FindAttempt(q.subject, q.attemptSeq);
      if found.None? {
        return Failed(Outcome.NotFound, ATTEMPT_UNKNOWN);
      }
      var r := found.value;
      var d := About(r, DecisionKind.Rollback, Nothing);
      var current := Authority(q.subject, r.generation);
      var mismatches := Mismatches(q.expected, current);
      if mismatches != [] {
        reply := Settle(d.(assertion := Observation, outcome := Outcome.Stale, reasons := [Because(STALE_AUTHORITY)] + mismatches), [], false);
        return;
      }
      if r.phase.RolledBack? {
        reply := Settle(Conclude(d, Authorization, Outcome.Ok, [IDEMPOTENT_REPLAY]).(idempotentReplay := true), [], false);
        return;
      }
      if !HoldsAuthority(r.phase) {
        reply := Settle(Conclude(d, Observation, Outcome.Conflict, [ROLLBACK_NOT_AUTHORIZED]), [], false);
        return;
      }
      var updated := r.(phase := Phase.RolledBack, reasons := AddReason(r.reasons, Explained(ROLLBACK_REQUESTED, q.rationale)));
      reply := Revert(r, updated, Conclude(d, Authorization, Outcome.Ok, [ROLLBACK_COMPLETED, RESTORE_REQUIRES_NEW_GENERATION]), q.key);
    }

    /** The interrupted attempt under the observer's verdict; an applied one is re-bound to this boot. */
    method Resolved(r: AttemptRecord, verdict: Revalidation) returns (updated: AttemptRecord)
      ensures updated == WithVerdict(env, View(), r, verdict)
    {
      hide AddReason;
      updated := r.(revalidated := true, revalidation := verdict);
      match verdict
      case NotApplied =>
        updated := updated.(phase := Aborted, reasons := AddReason(r.reasons, Because(FENCED)));
      case Applied =>
        var d := store.state;
        updated := updated.(phase := Phase.Committed, reasons := AddReason(r.reasons, Because(EFFECT_VERIFIED)), coordinator := incarnation,
                            authority := r.authority.(policyGeneration := d.policy.generation, policyDigest := env.h.policy(d.policy),
                                                      topologyGeneration := d.topology.generation, topologyDigest := env.h.topology(d.topology),
                                                      epoch := epoch, coordinator := incarnation));
      case Unknown =>
        updated := updated.(reasons := AddReason(r.reasons, Because(BACKEND_UNKNOWN)));
    }

    method ExplainResolution(r: AttemptRecord, updated: AttemptRecord, verdict: Revalidation, about: Decision) returns (d: Decision)
      requires updated == WithVerdict(env, View(), r, verdict)
      ensures d == RevalidationDecision(env, View(), r, about, verdict)
    {
      hide AddReason, Listed;
      var kept := [LINEAGE_PRESERVED, DYNAMIC_STATE_NOT_RESTORED];
      match verdict
      case NotApplied => d := Conclude(about, Observation, Outcome.Ok, [FENCED] + kept);
      case Applied =>
        var codes := [EFFECT_VERIFIED];
        if r.authority.policyGeneration != store.state.policy.generation {
          codes := codes + [POLICY_GENERATION_MISMATCH];
        } else {
          codes := codes + [];
        }
        if r.authority.topologyGeneration != store.state.topology.generation {
          codes := codes + [TOPOLOGY_GENERATION_MISMATCH];
        } else {
          codes := codes + [];
        }
        d := Conclude(about, Authorization, Outcome.Ok, codes + kept).(authority := updated.authority);
      case Unknown => d := Conclude(about, Observation, Outcome.Indeterminate, [BACKEND_UNKNOWN] + kept);
    }

    method ResolveInterrupted(q: RevalidationRequest) returns (reply: Reply)
      modifies this, store
      ensures (View(), reply) == Protocol.ResolveInterrupted(env, old(View()), q)
      ensures Answers.ResolutionAnswered(env, old(View()), q, View(), reply)
    {
      hide Lineage.Lookup, SettleUndurable, SettleDurable, PutThenSettle, DecisionAbout, Conclude, WithVerdict, RevalidationDecision, Answers.ResolutionAnswered;
      Answers.ResolutionAnswers(env, View(), q);
      if closed {
        return Failed(Outcome.Closed, SHUTDOWN);
      }
      if q.observer == ZERO_INCARNATION {
        return Failed(Outcome.Invalid, WORKER_MISMATCH);
      }
      if q.observerEpoch != epoch {
        return Failed(Outcome.Stale, EPOCH_MISMATCH);
      }
      tick := tick + 1;
      var found := store.FindAttempt(q.subject, q.attemptSeq);
      if found.None? {
        return Failed(Outcome.NotFound, ATTEMPT_UNKNOWN);
      }
      var r := found.value;
      var d := About(r, DecisionKind.Revalidate, Observation);
      if r.revalidated {
        var outcome, assertion := Outcome.Ok, Observation;
        match r.revalidation {
          case NotApplied =>
          case Applied => assertion := Authorization;
          case Unknown => outcome := Outcome.Indeterminate;
        }
        reply := Settle(Conclude(d, assertion, outcome, [IDEMPOTENT_REPLAY]).(idempotentReplay := true), [], false);
        return;
      }
      if !r.phase.Interrupted? {
        reply := Settle(Conclude(d, Observation, Outcome.Conflict, [ATTEMPT_COMPLETED]), [], false);
        return;
      }
      var updated := Resolved(r, q.verdict);
      d := ExplainResolution(r, updated, q.verdict, d);
      reply := PutAndSettle(if q.verdict.Applied? then Lineage.Completion else Lineage.Update, updated, d, false);
    }

    // ---- the applier boundary ----

    method ListPending(maxCount: nat) returns (directives: seq<Directive>)
      ensures directives == PendingDirectives(View(), maxCount)
      ensures Table.UniqueKeys(store.state.attempts) ==> Directives.Listing(View(), maxCount, directives)
    {
      hide Sort, Filtered, Directives.Listing, Table.UniqueKeys;
      if Table.UniqueKeys(store.state.attempts) { Directives.ListingIs(View(), maxCount); }
      directives := [];
      if closed {
        NothingPending(View(), maxCount);
        return;
      }
      var ordered: seq<AttemptRecord> := [];
      var a := store.state.attempts;
      FilteredNone(a);
      for i := 0 to |a|
        invariant ordered == Filtered(a[..i])
      {
        FilteredStep(a, i);
        if a[i].phase.Authorized? && !a[i].replacement.Empty() {
          ordered := ordered + [a[i]];
        }
      }
      assert a[..|a|] == a;
      ordered := Sort(ordered, AttemptLess);
      var i := 0;
      while i < |ordered| && |directives| < maxCount && |directives| < options.limits.maxDirectives
        invariant i <= |ordered| && |directives| == i && i <= maxCount && i <= options.limits.maxDirectives
        invariant directives == Protocol.Directives(ordered[..i], tick)
      {
        directives := directives + [DirectiveOf(ordered[i], tick)];
        i := i + 1;
      }
      assert i < |ordered| ==> ordered[..i] == ordered[..if maxCount < options.limits.maxDirectives then maxCount else options.limits.maxDirectives];
      assert i == |ordered| ==> ordered[..i] == ordered;
    }

    // ---- compaction and closing ----

    method Checkpoint() returns (reply: Reply)
      modifies this`storeFailed, store
      ensures (View(), reply) == CheckpointCall(old(View()))
      ensures Definitions.CheckpointAnswered(old(View()), View(), reply)
    {
      hide Lineage.Checkpoint, Definitions.CheckpointAnswered;
      Definitions.CheckpointAnswers(View());
      if closed {
        return Failed(Outcome.Closed, SHUTDOWN);
      }
      var ok := store.TakeCheckpoint();
      if !ok {
        storeFailed := true;
        return Failed(Outcome.IoError, INTERNAL_ERROR);
      }
      return Done;
    }

    method Close() returns (reply: Reply)
      modifies this, store
      ensures (View(), reply) == Protocol.Close(old(View()))
      ensures Definitions.CloseAnswered(old(View()), View(), reply)
    {
      hide Lineage.Checkpoint, Lineage.Commit, Definitions.CloseAnswered;
      Definitions.CloseAnswers(View());
      if closed {
        return Done;
      }
      closed := true;
      var wasFailed, lastSeq := store.failed, store.state.lastSeq;
      var ok := store.CommitRecord(Lineage.ShutdownMark(epoch, incarnation, store.state.lastSeq));
      if !ok {
        reply := FailureOf(wasFailed, lastSeq);
        return;
      }
      if options.enableSnapshot {
        var compacted := store.TakeCheckpoint();
        if !compacted {
          storeFailed := true;
        }
      }
      return Done;
    }
  }

  lemma RevokeStep(e: EngineState, kind: FenceKind, a: seq<AttemptRecord>, i: nat)
    requires i < |a| && !e.store.failed
    ensures RevokeAll(e, kind, a[i..]) == RevokeAll(if HoldsAuthority(a[i].phase) then RevokeOne(e, kind, a[i]) else e, kind, a[i + 1..])
  {
    hide RevokeOne;
    assert a[i..][1..] == a[i + 1..];
  }

  lemma RevokeStops(e: EngineState, kind: FenceKind, rest: seq<AttemptRecord>)
    requires e.store.failed || rest == []
    ensures RevokeAll(e, kind, rest) == e
  {}

  lemma NoCandidates(fabric: Name, subject: LinkKey)
    ensures CandidatesFault(fabric, subject, []).None?
  {}

  lemma CandidatesStep(fabric: Name, subject: LinkKey, cs: seq<Resolution.Candidate>, i: nat)
    requires i < |cs|
    ensures CandidatesFault(fabric, subject, cs[..i + 1])
         == var earlier := CandidatesFault(fabric, subject, cs[..i]);
            if earlier.Some? then earlier else CandidateFault(fabric, subject, cs[..i], cs[i])
  {
    hide CandidateFault;
    assert cs[..i + 1][..i] == cs[..i];
  }

  lemma SeenBefore(cs: seq<Resolution.Candidate>, i: nat)
    requires i < |cs|
    ensures (exists k :: 0 <= k < i && cs[k].link == cs[i].link) <==> (exists x :: x in cs[..i] && x.link == cs[i].link)
  {
    if k :| 0 <= k < i && cs[k].link == cs[i].link {
      assert cs[..i][k] == cs[k];
      assert cs[k] in cs[..i];
    }
  }

  /** A fault in a prefix is the fault of the whole. */
  lemma {:induction false} FaultDecides(fabric: Name, subject: LinkKey, cs: seq<Resolution.Candidate>, k: nat)
    requires k <= |cs| && CandidatesFault(fabric, subject, cs[..k]).Some?
    ensures CandidatesFault(fabric, subject, cs) == CandidatesFault(fabric, subject, cs[..k])
    decreases |cs|
  {
    hide CandidateFault;
    if k == |cs| {
      assert cs[..k] == cs;
    } else {
      var n := |cs| - 1;
      assert cs[..n][..k] == cs[..k];
      FaultDecides(fabric, subject, cs[..n], k);
    }
  }

  lemma NothingPending(e: EngineState, maxCount: nat)
    requires e.closed
    ensures PendingDirectives(e, maxCount) == []
  {}

  lemma FilteredNone(a: seq<AttemptRecord>)
    ensures Filtered(a[..0]) == []
  {}

  lemma FilteredStep(a: seq<AttemptRecord>, i: nat)
    requires i < |a|
    ensures Filtered(a[..i + 1]) == Filtered(a[..i]) + (if Pending(a[i]) then [a[i]] else [])
  {
    assert a[..i + 1][..i] == a[..i];
  }

  // ---- opening ----

  /** Opens an engine over the medium that an earlier process left: restore, boot record, restart fence. */
  method OpenOver(env: Env, o: Options, incarnation: Incarnation, was: StoreState, fate: Lineage.Fate)
    returns (engine: Engine?, store: LineageStore?, fault: Reply)
    ensures match OpenEngine(o, incarnation, was, fate)
            case Opened(e, _) => engine != null && fresh(engine) && engine.View() == e && engine.env == env && fault == Done
            case NotOpened(s, outcome, code) =>
              engine == null && fault == Failed(outcome, code) && (store != null ==> fresh(store) && store.View() == s) && (store == null ==> s == was)
  {
    hide Lineage.OpenStore, Lineage.Commit, FenceRestart, TopologyFault, InFlight;
    engine, store := null, null;
    if !ValidPolicy(o.policy) {
      return null, null, Failed(Outcome.Invalid, POLICY_REJECTED);
    }
    var topologyFault := TopologyFault(o.topology);
    if topologyFault.Some? {
      return null, null, Failed(topologyFault.value.0, topologyFault.value.1);
    }
    if o.fabric == [] {
      return null, null, Failed(Outcome.Invalid, UNKNOWN_FABRIC);
    }
    if o.topology.generation == 0 {
      return null, null, Failed(Outcome.Invalid, INVALID_ARGUMENT);
    }
    var restored: Lineage.Restored;
    restored, store := OpenLineage(was.medium, Lineage.StoreOptions(o.fabric, o.policy, o.topology, o.limits.store), fate);
    if restored.Barred? {
      return null, null, Failed(restored.outcome, restored.code);
    }
    var d := store.state;
    if d.epoch + 1 >= U64_LIMIT {
      return null, store, Failed(Outcome.Exhausted, ARITHMETIC_OVERFLOW);
    }
    if d.bootCount + 1 >= U64_LIMIT || d.epochAdvances + 1 >= U64_LIMIT {
      return null, store, Failed(Outcome.Exhausted, ARITHMETIC_OVERFLOW);
    }
    var booted := store.CommitRecord(Lineage.Boot(d.epoch + 1, incarnation, d.bootCount + 1, d.epochAdvances + 1));
    if !booted {
      return null, store, Failed(if d.lastSeq + 1 >= U64_LIMIT then Outcome.Exhausted else Outcome.IoError, INTERNAL_ERROR);
    }
    var fenced, interrupted := store.FenceRestartAuthority(d.epoch + 1, incarnation);
    if !fenced {
      return null, store, Failed(Outcome.IoError, INTERNAL_ERROR);
    }
    engine := new Engine(env, o, store, incarnation, d.epoch + 1);
    return engine, store, Done;
  }
}
