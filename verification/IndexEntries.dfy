/** The index's bound of 4096 bytes never turns a grant's entry away, so within one boot no key authorizes twice. */
module IndexEntries {
  import opened Basics
  import opened Records
  import opened Lineage
  import opened Protocol
  import opened Grants
  import opened Runs
  import opened Outcomes
  import opened Idempotency
  import EngineCalls
  import RecordCodec
  import Snapshot
  import Sorting
  import Selector
  import Verdicts

  /** The engine's own bound on an entry's encoding, and digests of their fixed width. */
  ghost predicate RealIndex(env: Env) {
    && (forall x: IdempotencyEntry :: env.fits(x) == Snapshot.EntryFits(x))
    && (forall d: Decision :: RecordCodec.IsDigest(env.h.decision(d)))
  }

  // ---- values of their types: names by the identity grammar, 64-bit counters, 32-byte digests ----

  predicate NamedTopology(t: Topology) {
    forall d :: d in t.links ==> RecordCodec.LinkOk(d.link) && RecordCodec.Long(d.generation)
  }

  predicate NamedRequest(q: FailoverRequest) {
    RecordCodec.LinkOk(q.subject) && RecordCodec.IsDigest(q.key) && forall c :: c in q.candidates ==> RecordCodec.LinkOk(c.link)
  }

  predicate NamedCall(call: Call) {
    match call
    case Requesting(q) => NamedRequest(q)
    case SettingTopology(t) => NamedTopology(t)
    case _ => true
  }

  /** The engine serves a named fabric, under a topology that was checked. */
  predicate NamedEngine(e: EngineState) {
    RecordCodec.ValidName(e.options.fabric) && NamedTopology(e.store.d.topology) && TopologyFault(e.store.d.topology).None?
  }

  lemma NamedCanonicalised(t: Topology)
    requires NamedTopology(t)
    ensures NamedTopology(Canonicalised(t))
  {
    hide RecordCodec.LinkOk, RecordCodec.Long;
    Sorting.SortHolds(t.links, DefinitionLess);
    forall d | d in Canonicalised(t).links ensures RecordCodec.LinkOk(d.link) && RecordCodec.Long(d.generation) {
      assert d in multiset(Canonicalised(t).links);
    }
  }

  lemma CallKeepsNamed(env: Env, e: EngineState, call: Call)
    requires NamedEngine(e) && NamedCall(call) && |e.store.d.idempotency| < e.store.limits.maxIdempotency
    ensures NamedEngine(Perform(env, e, call).0)
  {
    hide Perform, TopologyFault, NamedTopology, RecordCodec.ValidName, Canonicalised;
    CallKeepsIndex(env, e, call);
    if call.SettingTopology? { NamedCanonicalised(call.topology); }
  }

  lemma {:induction false} SessionIsNamed(env: Env, e: EngineState, calls: seq<(Call, Fate)>, k: nat)
    requires NamedEngine(e) && forall i :: 0 <= i < |calls| ==> NamedCall(calls[i].0)
    requires IndexHasRoom(env, e, calls) && k <= |calls|
    ensures NamedEngine(Converse(env, e, calls[..k]).e)
    decreases k
  {
    hide Perform, NamedEngine, NamedCall;
    if k > 0 {
      var n := k - 1;
      SessionIsNamed(env, e, calls, n);
      assert calls[..k][..n] == calls[..n] && calls[..k][n] == calls[n];
      var before := Converse(env, e, calls[..n]).e;
      FatedIsNamed(before, calls[n].1);
      CallKeepsNamed(env, Fated(before, calls[n].1), calls[n].0);
    }
  }

  lemma FatedIsNamed(e: EngineState, fate: Fate)
    ensures NamedEngine(Fated(e, fate)) == NamedEngine(e)
  {
    hide NamedTopology, TopologyFault;
  }

  // ---- the entry of a grant ----

  /** What a grant's settlement makes of its decision. */
  lemma SettledDecision(env: Env, e: EngineState, d: Decision, key: Digest)
    requires RealIndex(env)
    ensures var w := SettleDurable(env, e, d, key).1.decision;
            w.durable ==> RecordCodec.IsDigest(w.decisionId) && w.lineageSeq < U64_LIMIT && w.reasons == d.reasons && w.hasReplacement == d.hasReplacement
  {
    hide CommitIdempotency, MaybeCheckpoint, Remember, WithEntry;
  }

  lemma GrantedDecision(env: Env, e: EngineState, q: FailoverRequest, d: Decision)
    requires RealIndex(env) && GrantsAnew(GrantAuthority(env, e, q, d).1)
    ensures var w := GrantAuthority(env, e, q, d).1.decision;
            w.durable ==> RecordCodec.IsDigest(w.decisionId) && w.lineageSeq < U64_LIMIT && w.reasons == d.reasons && w.hasReplacement == d.hasReplacement
  {
    hide Write, SettleDurable, GrantedAttempt, RealIndex;
    var staged := Write(e, AttemptPut(Create, GrantedAttempt(e, q, d)));
    SettledDecision(env, Write(staged, AttemptPut(Update, GrantedAttempt(e, q, d).(phase := Authorized))), d, q.key);
  }

  lemma GrantReasons(env: Env, e: EngineState, q: FailoverRequest, o: Selector.Selection, chosen: Assessment, v: Verdicts.FailureVerdict)
    requires v.Established?
    ensures var d := GrantDecision(env, e, q, o, chosen, v);
            d.hasReplacement && RecordCodec.ReasonsOk(d.reasons, 2)
  {
    hide CountOf;
  }

  lemma NamedDefinition(t: Topology, subject: LinkKey, generation: nat)
    requires NamedTopology(t) && TopologyFault(t).None? && Defines(t, subject, generation)
    ensures RecordCodec.ValidName(subject.fabric) && RecordCodec.ValidName(subject.link) && RecordCodec.Long(generation)
  {
    hide RecordCodec.ValidName;
    assert Find(t.links, subject).value in t.links;
  }

  /** The entry under which a grant is indexed is well formed, and short. */
  lemma GrantEntry(env: Env, e: EngineState, q: FailoverRequest)
    requires RealIndex(env) && NamedEngine(e) && NamedRequest(q) && GrantsAnew(RequestFailover(env, e, q).1)
    ensures var w := RequestFailover(env, e, q).1.decision;
            w.durable ==> RecordCodec.EntryOk(EntryFor(w, q.key)) && |w.reasons| <= 2
  {
    hide RequestFailover, RealIndex, NamedTopology, TopologyFault, RecordCodec.ValidName, CountOf, Selector.Select, SelectionInput, Verdicts.EvaluateFailure,
      GrantAuthority, GrantDecision, GrantConditions, RecordCodec.LinkOk;
    var t := e.(tick := e.tick + 1);
    GrantMeans(env, e, q);
    ConditionsMean(env, t, q);
    RequestCounts(env, e, q);
    GrantIsAuthority(env, e, q);
    NamedDefinition(t.store.d.topology, q.subject, q.generation);
    var c, _ := GrantRestsOnEvidence(env, e, q);
    NamedDefinition(t.store.d.topology, c.link, RequestFailover(env, e, q).1.decision.replacementGeneration);
    var v := Verdicts.EvaluateFailure(t.book, Viewpoint(t), q.subject, q.generation);
    var o := Selector.Select(SelectionInput(t, q, Find(t.store.d.topology.links, q.subject).value));
    var d := GrantDecision(env, t, q, o, o.assessments[o.selectedIndex.value], v);
    GrantReasons(env, t, q, o, o.assessments[o.selectedIndex.value], v);
    GrantedDecision(env, t, q, d);
  }

  /** A grant's entry is always taken: the bound of the index never turns it away. */
  lemma GrantIsTaken(env: Env, e: EngineState, q: FailoverRequest)
    requires RealIndex(env) && NamedEngine(e) && NamedRequest(q) && GrantsAnew(RequestFailover(env, e, q).1)
    ensures EntryTaken(env, RequestFailover(env, e, q).1, q.key)
  {
    hide RequestFailover, RecordCodec.EntryOk, RecordCodec.PutEntry, NamedEngine, NamedRequest;
    GrantEntry(env, e, q);
    var w := RequestFailover(env, e, q).1.decision;
    if w.durable { RecordCodec.ShortEntriesFit(EntryFor(w, q.key)); }
  }

  /**
   * Under the engine's own bound: over any well-typed calls of one boot, with any write failures, no
   * non-zero key is ever granted twice, as long as the index evicts nothing.
   */
  lemma OneGrantPerKeyUnderTheBound(env: Env, e: EngineState, calls: seq<(Call, Fate)>)
    requires RealIndex(env) && NamedEngine(e) && forall i :: 0 <= i < |calls| ==> NamedCall(calls[i].0)
    requires IndexHasRoom(env, e, calls)
    ensures OncePerKey(Converse(env, e, calls))
  {
    hide Perform, RequestFailover, RealIndex, NamedEngine, GrantsAnew, EntryTaken, OncePerKey, IndexHasRoom, Converse, NamedRequest;
    forall k | 0 <= k < |calls| && calls[k].0.Requesting?
      ensures var reply := Perform(env, Fated(Converse(env, e, calls[..k]).e, calls[k].1), calls[k].0).1;
              GrantsAnew(reply) ==> EntryTaken(env, reply, calls[k].0.request.key)
    {
      SessionIsNamed(env, e, calls, k);
      var before := Fated(Converse(env, e, calls[..k]).e, calls[k].1);
      FatedIsNamed(Converse(env, e, calls[..k]).e, calls[k].1);
      var q := calls[k].0.request;
      PerformRequest(env, before, q);
      if GrantsAnew(RequestFailover(env, before, q).1) { GrantIsTaken(env, before, q); }
    }
    OneGrantPerKey(env, e, calls);
  }
}
