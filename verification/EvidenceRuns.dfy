/** The evidence book along whole runs of the engine. */
module EvidenceRuns {
  import opened Basics
  import opened Records
  import opened Evidence
  import opened Protocol
  import opened Runs
  import Lineage
  import Verdicts
  import Selector

  function Now(e: EngineState): Receipt { Receipt(e.tick, e.epoch, e.incarnation) }

  ghost predicate BookSound(e: EngineState) { Sound(e.book, Now(e), e.options.limits.evidence) }

  /** The calls that are not observations touch neither the book nor the boot's identity; the clock never goes back. */
  predicate SameDesk(e: EngineState, f: EngineState) {
    f.book == e.book && f.epoch == e.epoch && f.incarnation == e.incarnation && f.options == e.options && e.tick <= f.tick
  }

  lemma WriteDesk(e: EngineState, rec: Lineage.Record)
    ensures SameDesk(e, Write(e, rec))
  {
    hide Lineage.Commit;
  }

  lemma SettleDesk(env: Env, e: EngineState, d: Decision, key: Digest)
    ensures SameDesk(e, SettleDurable(env, e, d, key).0) && SameDesk(e, SettleUndurable(env, e, d).0)
    ensures SameDesk(e, CommitDecision(env, e, d).0) && SameDesk(e, CommitIdempotency(env, e, d, key))
    ensures SameDesk(e, MaybeCheckpoint(e)) && SameDesk(e, TakeCheckpoint(e).0)
  {
    hide Lineage.Commit, Lineage.Checkpoint;
  }

  lemma PutDesk(env: Env, e: EngineState, kind: Lineage.PutKind, r: AttemptRecord, d: Decision, checkpoints: bool)
    ensures SameDesk(e, PutThenSettle(env, e, kind, r, d, checkpoints).0)
  {
    hide Write, CommitDecision, MaybeCheckpoint;
    var put := Write(e, Lineage.AttemptPut(kind, r));
    WriteDesk(e, Lineage.AttemptPut(kind, r));
    SettleDesk(env, put, d, ZERO_DIGEST);
    SettleDesk(env, CommitDecision(env, put, d).0, d, ZERO_DIGEST);
  }

  lemma ExecuteDesk(env: Env, e: EngineState, plan: Plan)
    ensures SameDesk(e, Execute(env, e, plan).0)
  {
    hide Write, CommitDecision, CommitIdempotency, PutThenSettle, SettleUndurable;
    match plan
    case Reject(_, _) =>
    case Repeat(_) =>
    case Report(d) => SettleDesk(env, e, d, ZERO_DIGEST);
    case Put(kind, r, d, checkpoints) => PutDesk(env, e, kind, r, d, checkpoints);
    case CompleteEffect(v, d) =>
      WriteDesk(e, Lineage.AttemptPut(Lineage.Update, v));
      PutDesk(env, Write(e, Lineage.AttemptPut(Lineage.Update, v)), Lineage.Completion, v.(phase := Phase.Committed), d, true);
    case Revert(was, r, d, key) =>
      var put := Write(e, Lineage.AttemptPut(Lineage.Rollback, r));
      WriteDesk(e, Lineage.AttemptPut(Lineage.Rollback, r));
      var fenced := Write(put, Protocol.Fence(e, RollbackRevoked, was));
      WriteDesk(put, Protocol.Fence(e, RollbackRevoked, was));
      SettleDesk(env, fenced, d, key);
      SettleDesk(env, CommitDecision(env, fenced, d).0, CommitDecision(env, fenced, d).1, key);
  }

  lemma {:induction false} RevokeDesk(e: EngineState, kind: FenceKind, rest: seq<AttemptRecord>)
    ensures SameDesk(e, RevokeAll(e, kind, rest))
    decreases |rest|
  {
    hide Lineage.Commit;
    if rest != [] && !e.store.failed {
      RevokeDesk(if HoldsAuthority(rest[0].phase) then RevokeOne(e, kind, rest[0]) else e, kind, rest[1..]);
    }
  }

  lemma InstallDesk(e: EngineState, rec: Lineage.Record, kind: FenceKind)
    ensures SameDesk(e, Install(e, rec, kind).0)
  {
    hide Lineage.Commit, RevokeAll;
    RevokeDesk(Write(e, rec), kind, Write(e, rec).store.d.attempts);
  }

  lemma DeclineDesk(env: Env, e: EngineState, q: FailoverRequest, d: Decision, digest: Digest)
    ensures SameDesk(e, Decline(env, e, q, d, digest).0)
  {
    hide Write, SettleDurable, SettleUndurable, Lineage.CountOf;
    var rec := Lineage.AttemptPut(Lineage.Create, DeclinedAttempt(e, q, d, digest));
    WriteDesk(e, rec);
    SettleDesk(env, Write(e, rec), d, q.key);
    SettleDesk(env, e, d.(reasons := d.reasons + [Because(Reasons.ATTEMPTS_EXHAUSTED)]), q.key);
  }

  lemma GrantDesk(env: Env, e: EngineState, q: FailoverRequest, d: Decision)
    ensures SameDesk(e, GrantAuthority(env, e, q, d).0)
  {
    hide Write, SettleDurable, GrantedAttempt;
    var r := GrantedAttempt(e, q, d);
    var staged := Write(e, Lineage.AttemptPut(Lineage.Create, r));
    WriteDesk(e, Lineage.AttemptPut(Lineage.Create, r));
    var authorized := Write(staged, Lineage.AttemptPut(Lineage.Update, r.(phase := Authorized)));
    WriteDesk(staged, Lineage.AttemptPut(Lineage.Update, r.(phase := Authorized)));
    SettleDesk(env, authorized, d, q.key);
  }

  lemma BoundDesk(env: Env, e: EngineState, q: FailoverRequest, link: LinkDefinition)
    ensures SameDesk(e, DecideBound(env, e, q, link).0)
  {
    hide FailoverGate, SettleDurable, SettleUndurable, Decline, GrantAuthority, SelectionInput, Verdicts.EvaluateFailure,
      Selector.Select, Selector.NamesInput, Lineage.CountOf, SameDesk;
    DeskSelf(e);
    forall d, digest ensures SameDesk(e, Decline(env, e, q, d, digest).0) { DeclineDesk(env, e, q, d, digest); }
    forall d ensures SameDesk(e, GrantAuthority(env, e, q, d).0) { GrantDesk(env, e, q, d); }
    forall d ensures SameDesk(e, SettleDurable(env, e, d, q.key).0) && SameDesk(e, SettleUndurable(env, e, d).0) { SettleDesk(env, e, d, q.key); }
  }

  lemma DeskSelf(e: EngineState)
    ensures SameDesk(e, e)
  {}

  lemma CallDesk(env: Env, e: EngineState, call: Call)
    requires !call.Observing?
    ensures SameDesk(e, Perform(env, e, call).0)
  {
    hide Install, Execute, DecideBound, RequestFault, Lineage.FindEntry, Lineage.Commit, Lineage.Checkpoint,
      PlanApplication, PlanVerification, PlanRollback, PlanResolution, Canonicalised, TopologyFault;
    var t := e.(tick := e.tick + 1);
    match call
    case SettingPolicy(p) => InstallDesk(e, Lineage.PolicyCommit(p), PolicyChanged);
    case SettingTopology(n) => InstallDesk(e, Lineage.TopologyCommit(Canonicalised(n)), TopologyChanged);
    case Requesting(q) =>
      var link := Find(t.store.d.topology.links, q.subject);
      if link.Some? { BoundDesk(env, t, q, link.value); }
    case Applying(r) => ExecuteDesk(env, t, PlanApplication(t, r));
    case Verifying(r) => ExecuteDesk(env, t, PlanVerification(t, r));
    case RollingBack(q) => ExecuteDesk(env, t, PlanRollback(env, t, q));
    case Resolving(q) => ExecuteDesk(env, t, PlanResolution(env, t, q));
    case Checkpointing =>
    case Closing =>
  }

  lemma CallKeepsBook(env: Env, e: EngineState, call: Call)
    requires BookSound(e)
    ensures BookSound(Perform(env, e, call).0)
  {
    hide Sound, Evidence.Observe;
    if call.Observing? {
      var now := Receipt(e.tick + 1, e.epoch, e.incarnation);
      ObserveKeepsSound(e.book, env.h, call.observation, Now(e), now, e.options.limits.evidence);
    } else {
      CallDesk(env, e, call);
      LaterSound(e.book, Now(e), Now(Perform(env, e, call).0), e.options.limits.evidence);
    }
  }

  lemma {:induction false} RunKeepsBook(env: Env, w: World, events: seq<Event>)
    requires w.up ==> BookSound(w.e)
    ensures Run(env, w, events).up ==> BookSound(Run(env, w, events).e)
    decreases |events|
  {
    if events != [] {
      NextKeepsBook(env, w, events[0]);
      RunKeepsBook(env, Next(env, w, events[0]), events[1..]);
    }
  }

  lemma NextKeepsBook(env: Env, w: World, ev: Event)
    requires w.up ==> BookSound(w.e)
    ensures Next(env, w, ev).up ==> BookSound(Next(env, w, ev).e)
  {
    hide Perform, OpenEngine, Sound;
    match ev
    case Calling(call, fate) =>
      if w.up { CallKeepsBook(env, Fated(w.e, fate), call); }
    case Reopening(o, incarnation, fate) =>
      if OpenEngine(o, incarnation, w.e.store, fate).Opened? { OpenBook(o, incarnation, w.e.store, fate); }
  }

  lemma OpenBook(o: Options, incarnation: Incarnation, was: StoreState, fate: Lineage.Fate)
    requires OpenEngine(o, incarnation, was, fate).Opened?
    ensures BookSound(OpenEngine(o, incarnation, was, fate).e)
  {
    hide Lineage.OpenStore, OptionsFault, Lineage.Commit, FenceRestart, InFlight;
  }

  /**
   * In every state of every run, with no premise at all: the entry counter is the number of retained
   * observations and within its limit, each retained observation is under its publisher's current
   * incarnation, and none reads as received by another boot or in the future.
   */
  lemma BookIsSound(env: Env, o: Options, events: seq<Event>, x: Place)
    requires Run(env, Virgin(o), events).up
    ensures var e := Run(env, Virgin(o), events).e;
            && e.book.entries == |e.book.failure| + |e.book.replacement| <= e.options.limits.evidence.maxEntries
            && |e.book.publishers| <= e.options.limits.evidence.maxPublishers
            && (x in e.book.failure ==>
                  && x.publisher in e.book.publishers
                  && e.book.failure[x].report.stamp.incarnation == e.book.publishers[x.publisher].incarnation
                  && Verdicts.Classify(e.book.failure[x].receipt, Viewpoint(e)).0 in {Freshness.Current, Freshness.Expired})
            && (x in e.book.replacement ==>
                  && x.publisher in e.book.publishers
                  && e.book.replacement[x].report.stamp.incarnation == e.book.publishers[x.publisher].incarnation
                  && Verdicts.Classify(e.book.replacement[x].receipt, Viewpoint(e)).0 in {Freshness.Current, Freshness.Expired})
  {
    hide Run, Virgin;
    VirginDown(o);
    RunKeepsBook(env, Virgin(o), events);
    var e := Run(env, Virgin(o), events).e;
    Verdicts.OnlyCurrentOrExpired(e.book, Viewpoint(e), Now(e), e.options.limits.evidence, x);
  }

  lemma VirginDown(o: Options)
    ensures !Virgin(o).up
  {}
}
