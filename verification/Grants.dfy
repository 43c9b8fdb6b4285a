/** What a grant rests on, and what no run ever grants again. */
module Grants {
  import opened Basics
  import opened Records
  import opened Lineage
  import opened Invariant
  import opened Lifecycle
  import opened StoreSafety
  import opened Protocol
  import opened EngineSafety
  import opened EngineCalls
  import opened Runs
  import opened Gate
  import Evidence
  import Verdicts
  import Resolution
  import Selector
  import Sorting

  /** A reply that grants new authority, rather than repeating an earlier grant. */
  predicate GrantsAnew(r: Reply) { r.Decided? && r.decision.kind.Grant? && !r.decision.idempotentReplay }

  lemma DurableKind(env: Env, e: EngineState, d: Decision, key: Digest)
    ensures SettleDurable(env, e, d, key).1.Decided?
    ensures var w := SettleDurable(env, e, d, key).1.decision;
            w.kind == d.kind && w.idempotentReplay == d.idempotentReplay && w.subject == d.subject && w.generation == d.generation
            && w.replacement == d.replacement && w.replacementGeneration == d.replacementGeneration && w.attemptSeq == d.attemptSeq
            && w.authority == d.authority && w.attemptId == d.attemptId && w.evidenceDigest == d.evidenceDigest && d.reasons <= w.reasons
  {
    hide Write, CommitIdempotency, MaybeCheckpoint, Remember;
  }

  lemma UndurableKind(env: Env, e: EngineState, d: Decision)
    ensures SettleUndurable(env, e, d).1.Decided? && SettleUndurable(env, e, d).1.decision.kind == d.kind
  {
    hide Remember;
  }

  lemma DeclineGrantsNothing(env: Env, e: EngineState, q: FailoverRequest, d: Decision, digest: Digest)
    requires !d.kind.Grant?
    ensures !GrantsAnew(Decline(env, e, q, d, digest).1)
  {
    hide Write, SettleDurable, SettleUndurable;
    DurableKind(env, Write(e, AttemptPut(Create, DeclinedAttempt(e, q, d, digest))), d, q.key);
    UndurableKind(env, e, d.(reasons := d.reasons + [Because(Reasons.ATTEMPTS_EXHAUSTED)]));
  }

  lemma ShutGrantsNothing(env: Env, e: EngineState, q: FailoverRequest)
    ensures FailoverGate(env, e, q).Shut? ==> !FailoverGate(env, e, q).decision.kind.Grant?
  {
    hide ActiveAuthority, Latest;
  }

  /**
   * The conditions under which authority is granted, from the state the request found with its clock
   * advanced. Passes says in the state's own terms what the gate looks at: every expectation is met,
   * the policy enables failover, no attempt of the pair holds authority of this process, and the
   * pair's newest attempt is not an interrupted one.
   */
  ghost predicate GrantConditions(env: Env, t: EngineState, q: FailoverRequest) {
    && !t.closed && !t.storeFailed
    && WellFormed(t, q)
    && FindEntry(t.store.d.idempotency, q.key).None?
    && Defines(t.store.d.topology, q.subject, q.generation)
    && Passes(env, t, q)
    && Verdicts.EvaluateFailure(t.book, Viewpoint(t), q.subject, q.generation).Established?
    && CountOf(t.store.d.attempts, q.subject, q.generation) < t.store.d.policy.maxAttempts
    && Selector.Select(SelectionInput(t, q, Find(t.store.d.topology.links, q.subject).value)).status.Selected?
  }

  /** What the granted decision says. */
  ghost predicate GrantContents(env: Env, t: EngineState, q: FailoverRequest, d: Decision) {
    && d.subject == q.subject && d.generation == q.generation
    && d.attemptSeq == CountOf(t.store.d.attempts, q.subject, q.generation) + 1
    && d.authority.epoch == t.epoch && d.authority.coordinator == t.incarnation
    && Bound(env, t.store.d, d.authority)
    && d.authority.subject == q.subject && d.authority.subjectGeneration == q.generation
    && d.authority.replacement == d.replacement && d.authority.replacementGeneration == d.replacementGeneration
    && Selected(t, q, d)
  }

  ghost predicate Selected(t: EngineState, q: FailoverRequest, d: Decision) {
    var link := Find(t.store.d.topology.links, q.subject);
    && link.Some?
    && var o := Selector.Select(SelectionInput(t, q, link.value));
       && o.selectedIndex.Some? && o.selectedIndex.value < |o.assessments|
       && d.replacement == o.assessments[o.selectedIndex.value].candidate
       && d.replacementGeneration == o.assessments[o.selectedIndex.value].generation
  }

  lemma GrantReply(env: Env, e: EngineState, q: FailoverRequest, d: Decision)
    requires GrantsAnew(GrantAuthority(env, e, q, d).1)
    ensures var w := GrantAuthority(env, e, q, d).1.decision;
            w.kind == d.kind && w.subject == d.subject && w.generation == d.generation
            && w.replacement == d.replacement && w.replacementGeneration == d.replacementGeneration && w.attemptSeq == d.attemptSeq
            && w.authority == d.authority && w.attemptId == d.attemptId && w.evidenceDigest == d.evidenceDigest && d.reasons <= w.reasons
  {
    hide Write, SettleDurable, GrantedAttempt;
    var staged := Write(e, AttemptPut(Create, GrantedAttempt(e, q, d)));
    DurableKind(env, Write(staged, AttemptPut(Update, GrantedAttempt(e, q, d).(phase := Authorized))), d, q.key);
  }

  lemma SelectionGrants(env: Env, t: EngineState, q: FailoverRequest, input: Selector.Input, v: Verdicts.FailureVerdict)
    requires v.Established? && GrantsAnew(Grantable(env, t, q, input, v).1)
    ensures Selector.Select(input).status.Selected? && CountOf(t.store.d.attempts, q.subject, q.generation) < t.store.d.policy.maxAttempts
    ensures var o := Selector.Select(input);
            && o.selectedIndex.Some? && o.selectedIndex.value < |o.assessments|
            && var d := GrantDecision(env, t, q, o, o.assessments[o.selectedIndex.value], v);
               var w := Grantable(env, t, q, input, v).1.decision;
               && w.subject == d.subject && w.generation == d.generation && w.attemptSeq == d.attemptSeq
               && w.replacement == d.replacement && w.replacementGeneration == d.replacementGeneration && w.authority == d.authority
  {
    hide Decline, SettleUndurable, GrantAuthority, Selector.Select, Selector.NamesInput, CountOf;
    var o := Selector.Select(input);
    DeclineGrantsNothing(env, t, q, UnselectedDecision(env, t, q, o, v.digest), v.digest);
    UndurableKind(env, t, Conclude(RequestDecision(env, t, q).(candidates := o.assessments, evidenceDigest := v.digest, kind := Refuse),
                                   Eligibility, Outcome.Refused, [Reasons.ATTEMPTS_EXHAUSTED]));
    if Selector.Acceptable(input, o) && o.status.Selected? && CountOf(t.store.d.attempts, q.subject, q.generation) < t.store.d.policy.maxAttempts {
      Selector.AcceptableIndex(input, o);
      var d := GrantDecision(env, t, q, o, o.assessments[o.selectedIndex.value], v);
      if GrantsAnew(GrantAuthority(env, t, q, d).1) { GrantReply(env, t, q, d); }
    }
  }

  lemma GrantedVector(env: Env, t: EngineState, q: FailoverRequest, o: Selector.Selection, chosen: Assessment, v: Verdicts.FailureVerdict)
    requires v.Established?
    ensures var d := GrantDecision(env, t, q, o, chosen, v);
            && d.subject == q.subject && d.generation == q.generation
            && d.attemptSeq == CountOf(t.store.d.attempts, q.subject, q.generation) + 1
            && d.authority.epoch == t.epoch && d.authority.coordinator == t.incarnation && Bound(env, t.store.d, d.authority)
            && d.authority.subject == q.subject && d.authority.subjectGeneration == q.generation
            && d.replacement == chosen.candidate && d.replacementGeneration == chosen.generation
            && d.authority.replacement == chosen.candidate && d.authority.replacementGeneration == chosen.generation
  {
    hide CountOf, Listed;
  }

  lemma BoundGrants(env: Env, t: EngineState, q: FailoverRequest, link: LinkDefinition)
    requires GrantsAnew(DecideBound(env, t, q, link).1)
    ensures FailoverGate(env, t, q).Open?
    ensures var v := Verdicts.EvaluateFailure(t.book, Viewpoint(t), q.subject, q.generation);
            v.Established? && DecideBound(env, t, q, link) == Grantable(env, t, q, SelectionInput(t, q, link), v)
  {
    hide FailoverGate, Decline, SettleUndurable, SettleDurable, Grantable, SelectionInput, Verdicts.EvaluateFailure, CountOf;
    var gate := FailoverGate(env, t, q);
    ShutGrantsNothing(env, t, q);
    if gate.Shut? {
      DurableKind(env, t, gate.decision, q.key);
      UndurableKind(env, t, gate.decision);
    } else {
      match Verdicts.EvaluateFailure(t.book, Viewpoint(t), q.subject, q.generation)
      case NotEstablished(outcome, reason, extra) =>
        DeclineGrantsNothing(env, t, q, UnestablishedDecision(env, t, q, outcome, reason, extra), ZERO_DIGEST);
      case Established(p, i, n, digest) =>
    }
  }

  /** A grant meets every condition, and its decision is bound to the current boot and definitions. */
  lemma GrantMeans(env: Env, e: EngineState, q: FailoverRequest)
    requires GrantsAnew(RequestFailover(env, e, q).1)
    ensures GrantConditions(env, e.(tick := e.tick + 1), q)
    ensures GrantContents(env, e.(tick := e.tick + 1), q, RequestFailover(env, e, q).1.decision)
  {
    hide DecideBound, RequestFault, FindEntry, FailoverGate, CountOf, Selector.Select, SelectionInput, Verdicts.EvaluateFailure, Grantable, GrantDecision,
      WellFormed, Passes, MalformedAnswer, TurnsAway;
    var t := e.(tick := e.tick + 1);
    FormIsChecked(t, q);
    GateOpensExactlyWhen(env, t, q);
    var link := Find(t.store.d.topology.links, q.subject);
    ReplayIsNoGrant(t, q);
    BoundGrants(env, t, q, link.value);
    var v := Verdicts.EvaluateFailure(t.book, Viewpoint(t), q.subject, q.generation);
    var input := SelectionInput(t, q, link.value);
    SelectionGrants(env, t, q, input, v);
    var o := Selector.Select(input);
    GrantedVector(env, t, q, o, o.assessments[o.selectedIndex.value], v);
  }

  /** A selection that passes its checks and stays within the budget is granted, the writes succeeding. */
  lemma SelectionSuffices(env: Env, t: EngineState, q: FailoverRequest, input: Selector.Input, v: Verdicts.FailureVerdict)
    requires v.Established? && Works(t.store, 2)
    requires Selector.Select(input).status.Selected? && Selector.Acceptable(input, Selector.Select(input))
    requires CountOf(t.store.d.attempts, q.subject, q.generation) < t.store.d.policy.maxAttempts
    requires CountOf(t.store.d.attempts, q.subject, q.generation) + 1 < U64_LIMIT
    ensures GrantsAnew(Grantable(env, t, q, input, v).1)
  {
    hide Decline, SettleUndurable, GrantAuthority, Selector.Select, Selector.NamesInput, CountOf, GrantDecision, Selector.Maximal;
    var o := Selector.Select(input);
    Selector.AcceptableIndex(input, o);
    var chosen := o.assessments[o.selectedIndex.value];
    assert Selector.NamesInput(input, chosen);
    GrantGoesThrough(env, t, q, GrantDecision(env, t, q, o, chosen, v));
    GrantKind(env, t, q, o, chosen, v);
  }

  lemma GrantKind(env: Env, t: EngineState, q: FailoverRequest, o: Selector.Selection, chosen: Assessment, v: Verdicts.FailureVerdict)
    requires v.Established?
    ensures GrantDecision(env, t, q, o, chosen, v).kind.Grant? && !GrantDecision(env, t, q, o, chosen, v).idempotentReplay
  {
    hide CountOf;
  }

  lemma GrantGoesThrough(env: Env, e: EngineState, q: FailoverRequest, d: Decision)
    requires Works(e.store, 2)
    ensures GrantAuthority(env, e, q, d).1.Decided?
    ensures GrantAuthority(env, e, q, d).1.decision.kind == d.kind && GrantAuthority(env, e, q, d).1.decision.idempotentReplay == d.idempotentReplay
  {
    hide Commit, SettleDurable, GrantedAttempt, After;
    var r := GrantedAttempt(e, q, d);
    var staged := Write(e, AttemptPut(Create, r));
    CommitWorks(e.store, AttemptPut(Create, r), 1);
    CommitWorks(staged.store, AttemptPut(Update, r.(phase := Authorized)), 0);
    DurableKind(env, Write(staged, AttemptPut(Update, r.(phase := Authorized))), d, q.key);
  }

  /**
   * The conditions are exact: when the two writes of a grant succeed, a request is granted anew if
   * and only if it meets every one of them and its sequence is a 64-bit number.
   */
  lemma GrantsExactlyWhen(env: Env, e: EngineState, q: FailoverRequest)
    requires Works(e.store, 2)
    ensures GrantsAnew(RequestFailover(env, e, q).1)
            <==> GrantConditions(env, e.(tick := e.tick + 1), q) && CountOf(e.store.d.attempts, q.subject, q.generation) + 1 < U64_LIMIT
  {
    hide GrantConditions, RequestFailover, CountOf, GrantContents, GrantsAnew;
    var t := e.(tick := e.tick + 1);
    if GrantsAnew(RequestFailover(env, e, q).1) {
      GrantMeans(env, e, q);
      RequestCounts(env, e, q);
    }
    if GrantConditions(env, t, q) && CountOf(e.store.d.attempts, q.subject, q.generation) + 1 < U64_LIMIT {
      ConditionsSuffice(env, e, q);
    }
  }

  lemma ConditionsSuffice(env: Env, e: EngineState, q: FailoverRequest)
    requires Works(e.store, 2) && GrantConditions(env, e.(tick := e.tick + 1), q)
    requires CountOf(e.store.d.attempts, q.subject, q.generation) + 1 < U64_LIMIT
    ensures GrantsAnew(RequestFailover(env, e, q).1)
  {
    hide RequestFault, FindEntry, FailoverGate, CountOf, Selector.Select, Selector.Acceptable, SelectionInput, Verdicts.EvaluateFailure, Grantable, GrantsAnew,
      WellFormed, Passes, MalformedAnswer, TurnsAway;
    var t := e.(tick := e.tick + 1);
    FormIsChecked(t, q);
    GateOpensExactlyWhen(env, t, q);
    var link := Find(t.store.d.topology.links, q.subject).value;
    SelectionAlwaysPasses(env, t, q, link);
    SelectionSuffices(env, t, q, SelectionInput(t, q, link), Verdicts.EvaluateFailure(t.book, Viewpoint(t), q.subject, q.generation));
  }

  /** The sequence of a grant is a 64-bit number. */
  lemma SelectionCounts(env: Env, t: EngineState, q: FailoverRequest, input: Selector.Input, v: Verdicts.FailureVerdict)
    requires v.Established? && GrantsAnew(Grantable(env, t, q, input, v).1)
    ensures CountOf(t.store.d.attempts, q.subject, q.generation) + 1 < U64_LIMIT
  {
    hide Decline, SettleUndurable, GrantAuthority, Selector.Select, Selector.NamesInput, CountOf, GrantDecision, Selector.Maximal;
    var o := Selector.Select(input);
    DeclineGrantsNothing(env, t, q, UnselectedDecision(env, t, q, o, v.digest), v.digest);
    UndurableKind(env, t, Conclude(RequestDecision(env, t, q).(candidates := o.assessments, evidenceDigest := v.digest, kind := Refuse),
                                   Eligibility, Outcome.Refused, [Reasons.ATTEMPTS_EXHAUSTED]));
  }

  lemma RequestCounts(env: Env, e: EngineState, q: FailoverRequest)
    requires GrantsAnew(RequestFailover(env, e, q).1)
    ensures CountOf(e.store.d.attempts, q.subject, q.generation) + 1 < U64_LIMIT
  {
    hide DecideBound, RequestFault, FindEntry, CountOf, SelectionInput, Verdicts.EvaluateFailure, Grantable;
    var t := e.(tick := e.tick + 1);
    ReplayIsNoGrant(t, q);
    var link := Find(t.store.d.topology.links, q.subject);
    BoundGrants(env, t, q, link.value);
    SelectionCounts(env, t, q, SelectionInput(t, q, link.value), Verdicts.EvaluateFailure(t.book, Viewpoint(t), q.subject, q.generation));
  }

  lemma ReplayIsNoGrant(t: EngineState, q: FailoverRequest)
    ensures FindEntry(t.store.d.idempotency, q.key).Some? ==>
              !GrantsAnew(Decided(ReplayDecision(t, FindEntry(t.store.d.idempotency, q.key).value)))
  {}

  lemma SortedHolds(s: seq<Selector.Resolved>)
    ensures multiset(Sorting.Sort(s, ResolvedLess)) == multiset(s)
  {
    forall a: Selector.Resolved ensures !ResolvedLess(a, a) {
      LinkLessStrictTotal(a.candidate, a.candidate);
    }
    forall a: Selector.Resolved, b: Selector.Resolved, c: Selector.Resolved
      ensures ResolvedLess(a, b) && ResolvedLess(b, c) ==> ResolvedLess(a, c)
      ensures ResolvedLess(a, c) ==> ResolvedLess(a, b) || ResolvedLess(b, c)
    {
      LinkOrderCases(a.candidate, b.candidate, c.candidate);
    }
    Sorting.SortIsSorted(s, ResolvedLess);
  }

  /**
   * A grant's evidence. Someone qualified reports the subject failed and none of the qualified
   * contradicts or, by majority, fewer do; and the alternate is one the request named, whose chosen observation
   * is its publisher's current one, for the current generations, inside the window, confident,
   * usable, and uncontradicted by any other qualified observation.
   */
  lemma GrantRestsOnEvidence(env: Env, e: EngineState, q: FailoverRequest) returns (c: Resolution.Candidate, x: Evidence.Place)
    requires GrantsAnew(RequestFailover(env, e, q).1)
    ensures var t := e.(tick := e.tick + 1);
            var v := Viewpoint(t);
            var d := RequestFailover(env, e, q).1.decision;
            var failing := Verdicts.Counting(t.book, v, q.subject, q.generation, Verdicts.Failing);
            var healthy := Verdicts.Counting(t.book, v, q.subject, q.generation, Verdicts.Healthy);
            && failing != {} && (if t.store.d.policy.agreement == Unanimous then healthy == {} else |failing| > |healthy|)
            && c in q.candidates && c.link != q.subject && d.replacement == c.link
            && Defines(t.store.d.topology, c.link, d.replacementGeneration)
            && (c.expectedGeneration == 0 || c.expectedGeneration == d.replacementGeneration)
            && x in t.book.replacement && x.link == c.link
            && Resolution.AdmissibleAt(t.book, v, d.replacementGeneration, x) && Resolution.QualifiedAt(t.book, v, x)
            && (t.book.replacement[x].report.state.Up? || (t.book.replacement[x].report.state.Degraded? && v.policy.allowDegraded))
            && (forall y :: y in t.book.replacement && y.link == c.link
                            && Resolution.AdmissibleAt(t.book, v, d.replacementGeneration, y) && Resolution.QualifiedAt(t.book, v, y)
                            ==> t.book.replacement[y].report.state == t.book.replacement[x].report.state)
  {
    hide RequestFailover, WellFormed, Passes, CountOf, Selector.Select, Verdicts.EvaluateFailure, Verdicts.Counting,
      Resolution.AdmissibleAt, Resolution.QualifiedAt, Resolution.Resolve, Sorting.Sort;
    GrantMeans(env, e, q);
    var t := e.(tick := e.tick + 1);
    var v := Viewpoint(t);
    Verdicts.EstablishedMeans(t.book, v, q.subject, q.generation);
    var links := t.store.d.topology.links;
    var input := SelectionInput(t, q, Find(links, q.subject).value);
    var chosen := Selector.SelectedIsBest(input);
    var resolved := Resolution.ResolveAll(t.book, v, links, q.candidates);
    SortedHolds(resolved);
    assert chosen in multiset(resolved);
    var i :| 0 <= i < |resolved| && resolved[i] == chosen;
    c := q.candidates[i];
    x := Resolution.EligibleRestsOnEvidence(t.book, v, links, c, input);
  }

  // ---- the internal check never fires ----

  lemma {:induction false} NoDuplicates(fabric: Name, subject: LinkKey, cs: seq<Resolution.Candidate>)
    requires CandidatesFault(fabric, subject, cs).None?
    ensures forall i, j :: 0 <= i < j < |cs| ==> cs[i].link != cs[j].link
    ensures forall c :: c in cs ==> c.link != subject && c.link.fabric == fabric
    decreases |cs|
  {
    if cs != [] {
      var n := |cs| - 1;
      NoDuplicates(fabric, subject, cs[..n]);
      assert cs == cs[..n] + [cs[n]];
      forall i | 0 <= i < n ensures cs[i].link != cs[n].link {
        assert cs[i] in cs[..n];
      }
    }
  }

  lemma SortedDuplicateFree(s: seq<Selector.Resolved>)
    requires Selector.DuplicateFree(s)
    ensures Selector.DuplicateFree(Sorting.Sort(s, ResolvedLess))
  {
    SortedHolds(s);
    var t := Sorting.Sort(s, ResolvedLess);
    forall i, j | 0 <= i < j < |t| ensures t[i].candidate != t[j].candidate {
      if t[i] == t[j] {
        Sorting.TwiceCounts(t, i, j);
        OnceOnly(s, t[i]);
        assert false;
      } else {
        var k := Selector.PlaceOf(s, t[i]);
        var m := Selector.PlaceOf(s, t[j]);
        assert k != m;
      }
    }
  }

  lemma {:induction false} OnceOnly(s: seq<Selector.Resolved>, x: Selector.Resolved)
    requires Selector.DuplicateFree(s)
    ensures multiset(s)[x] <= 1
    decreases |s|
  {
    if s != [] {
      var n := |s| - 1;
      OnceOnly(s[..n], x);
      assert s == s[..n] + [s[n]];
      if s[n] == x { assert x !in s[..n]; }
    }
  }

  /** A well-formed request's selection always passes the independent checker. */
  lemma SelectionAlwaysPasses(env: Env, e: EngineState, q: FailoverRequest, link: LinkDefinition)
    requires RequestFault(e, q).None?
    ensures Selector.Acceptable(SelectionInput(e, q, link), Selector.Select(SelectionInput(e, q, link)))
  {
    hide Resolution.Resolve, Selector.Select, Selector.Acceptable, Sorting.Sort;
    NoDuplicates(e.options.fabric, q.subject, q.candidates);
    var resolved := Resolution.ResolveAll(e.book, Viewpoint(e), e.store.d.topology.links, q.candidates);
    SortedDuplicateFree(resolved);
    Selector.SelectorIsAcceptable(SelectionInput(e, q, link));
  }

  /** A request whose candidates are refused unless they are of its fabric never leaves the choice to the order. */
  lemma RequestHasOneBest(e: EngineState, q: FailoverRequest, link: LinkDefinition)
    requires RequestFault(e, q).None?
    ensures Selector.OneBest(SelectionInput(e, q, link))
  {
    hide Resolution.Resolve, Selector.Assess, Selector.Better, Sorting.Sort;
    var input := SelectionInput(e, q, link);
    var rs := Resolution.ResolveAll(e.book, Viewpoint(e), e.store.d.topology.links, q.candidates);
    NoDuplicates(e.options.fabric, q.subject, q.candidates);
    Sorting.SortHolds(rs, ResolvedLess);
    forall c | c in input.candidates ensures c.candidate.fabric == e.options.fabric {
      assert c in multiset(rs);
    }
    forall c, d | Selector.Unbeaten(input, c) && Selector.Unbeaten(input, d) ensures c.candidate == d.candidate {
      Selector.TiesExactlyWhen(Selector.Assess(input, c), Selector.Assess(input, d));
    }
  }

  // ---- what is never granted again ----

  /**
   * Once revalidation could not tell whether an interrupted attempt took effect, no continuation of
   * the run - no later call, crash or reopening - ever grants that link generation again.
   */
  lemma StuckPairIsNeverGranted(env: Env, w: World, events: seq<Event>, r: AttemptRecord, q: FailoverRequest)
    requires Reachable(env, w) && StandingRun(env, w, events)
    requires r in w.e.store.disk.attempts && Stuck(r)
    requires Run(env, w, events).up && !Run(env, w, events).e.store.failed
    requires q.subject == r.subject && q.generation == r.generation
    ensures !GrantsAnew(RequestFailover(env, Run(env, w, events).e, q).1)
  {
    hide Reachable, WorldInv, RequestFailover, Run, StandingRun, Evolves, Blocked, GrantConditions, GrantContents;
    ReachableInv(env, w);
    RunKeeps(env, w, events);
    var z := Run(env, w, events);
    var p := Pair(r.subject, r.generation);
    StuckBlocks(w.e.store.disk, w.h, r);
    BlockedForever(w.e.store.disk, w.h, z.e.store.disk, z.h, p);
    if GrantsAnew(RequestFailover(env, z.e, q).1) {
      GrantMeans(env, z.e, q);
      BlockedContradicts(env, z, q);
    }
  }

  lemma StuckBlocks(d: Lineage.DurableState, h: History, r: AttemptRecord)
    requires r in d.attempts && Stuck(r)
    ensures Blocked(d, h, Pair(r.subject, r.generation))
  {
    assert OfPair(r, r.subject, r.generation);
  }

  lemma BlockedContradicts(env: Env, w: World, q: FailoverRequest)
    requires WorldInv(env, w) && w.up && !w.e.store.failed
    requires Blocked(w.e.store.disk, w.h, Pair(q.subject, q.generation))
    ensures !GrantConditions(env, w.e.(tick := w.e.tick + 1), q)
  {
    var d := w.e.store.d;
    var t := w.e.(tick := w.e.tick + 1);
    hide WellFormed, Passes, MalformedAnswer, TurnsAway, Verdicts.EvaluateFailure, SelectionInput, Selector.Select, FindEntry, Mismatches, RequestFault;
    GateOpensExactlyWhen(env, t, q);
    PairsMeans(d.topology, q.subject, q.generation);
    if Defines(d.topology, q.subject, q.generation) {
      BlockedShutsTheGate(d, w.h, Pair(q.subject, q.generation));
    }
  }
}
