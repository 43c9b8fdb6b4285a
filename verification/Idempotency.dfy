/** Within one boot, a key authorizes at most once, and a replay writes nothing. */
module Idempotency {
  import opened Basics
  import opened Records
  import opened Lineage
  import opened Protocol
  import opened Grants
  import opened Runs
  import Verdicts
  import Selector
  import Resolution
  import Evidence

  /** A key in the index: the request is answered from it and the store is not touched. */
  lemma ReplayWritesNothing(env: Env, e: EngineState, q: FailoverRequest, r: RollbackRequest)
    ensures FindEntry(e.store.d.idempotency, q.key).Some? ==>
              && RequestFailover(env, e, q).0.store == e.store
              && !GrantsAnew(RequestFailover(env, e, q).1)
    ensures FindEntry(e.store.d.idempotency, r.key).Some? ==>
              && RequestRollback(env, e, r).0.store == e.store
              && (!e.closed ==> RequestRollback(env, e, r).1.Decided? && RequestRollback(env, e, r).1.decision.idempotentReplay)
    ensures FindEntry(e.store.d.idempotency, q.key).Some? && !e.closed && !e.storeFailed && RequestFault(e.(tick := e.tick + 1), q).None? ==>
              var entry := FindEntry(e.store.d.idempotency, q.key).value;
              var reply := RequestFailover(env, e, q).1;
              reply.Decided? && reply.decision.idempotentReplay && reply.decision.decisionId == entry.decisionId
              && reply.decision.attemptSeq == entry.attemptSeq && reply.decision.kind == entry.kind
  {
    hide DecideBound, RequestFault, FindEntry, RevertAuthority, PutThenSettle, SettleUndurable, PutEffectThenCommit;
  }

  // ---- the index along a session ----

  /** The index on the medium is the live one unless a write has failed. */
  predicate Synced(s: StoreState) { !s.failed ==> s.disk.idempotency == s.d.idempotency }

  /** The index on the medium only grows, too. */
  predicate DiskKept(s: StoreState, t: StoreState) {
    Synced(s) ==> Synced(t) && s.disk.idempotency <= t.disk.idempotency
  }

  /** The call left the index, the topology and the options alone. */
  predicate Untouched(e: EngineState, f: EngineState) {
    && DiskKept(e.store, f.store)
    && f.store.d.idempotency == e.store.d.idempotency && f.store.d.topology == e.store.d.topology
    && f.options == e.options && f.store.limits == e.store.limits
    && (e.storeFailed ==> f.storeFailed)
  }

  /** The index only grows, and a failure is for the rest of the boot. */
  predicate IndexKept(e: EngineState, f: EngineState) {
    && e.store.d.idempotency <= f.store.d.idempotency && (e.storeFailed ==> f.storeFailed) && f.options == e.options
    && DiskKept(e.store, f.store) && f.store.limits == e.store.limits
  }

  /** The topology in force afterwards is the one before or, if the call set one that has no fault, that one. */
  ghost predicate TopologyKept(e: EngineState, f: EngineState, call: Call) {
    f.store.d.topology == e.store.d.topology
    || (call.SettingTopology? && f.store.d.topology == Canonicalised(call.topology) && TopologyFault(f.store.d.topology).None?)
  }

  lemma CommitKeepsIndex(s: StoreState, rec: Record)
    ensures !rec.IdempotencyIndex? ==> Commit(s, rec).d.idempotency == s.d.idempotency
    ensures !rec.TopologyCommit? ==> Commit(s, rec).d.topology == s.d.topology
    ensures rec.TopologyCommit? ==> Commit(s, rec).d.topology == s.d.topology || Commit(s, rec).d.topology == rec.topology
    ensures rec.IdempotencyIndex? && |s.d.idempotency| < s.limits.maxIdempotency ==>
              && s.d.idempotency <= Commit(s, rec).d.idempotency
              && (!Commit(s, rec).failed ==> Commit(s, rec).d.idempotency == s.d.idempotency + [rec.entry])
    ensures Commit(s, rec).limits == s.limits
    ensures !rec.IdempotencyIndex? || |s.d.idempotency| < s.limits.maxIdempotency ==> DiskKept(s, Commit(s, rec))
  {
    hide RetainAttempts, Upsert, RetainFences, WithEntry;
  }

  lemma CheckpointKeepsIndex(e: EngineState)
    ensures Untouched(e, TakeCheckpoint(e).0) && Untouched(e, MaybeCheckpoint(e))
  {
    hide WithEntry;
  }

  lemma WriteKeepsIndex(e: EngineState, rec: Record)
    requires !rec.IdempotencyIndex? && !rec.TopologyCommit?
    ensures Untouched(e, Write(e, rec))
    ensures Write(e, rec).store.failed ==> Write(e, rec).storeFailed
  {
    hide Commit;
    CommitKeepsIndex(e.store, rec);
  }

  lemma DecisionKeepsIndex(env: Env, e: EngineState, d: Decision)
    ensures Untouched(e, CommitDecision(env, e, d).0)
    ensures CommitDecision(env, e, d).1.durable || CommitDecision(env, e, d).0.storeFailed
  {
    hide Write;
    WriteKeepsIndex(e, DecisionCommit(d));
  }

  lemma FindInLonger(a: seq<IdempotencyEntry>, b: seq<IdempotencyEntry>, key: Digest)
    requires a <= b && FindEntry(a, key).Some?
    ensures FindEntry(b, key).Some?
  {
    var x := FindEntry(a, key).value;
    assert x in b;
  }

  /** The decision that a settlement answers with, if it is durable, has an entry that the index takes. */
  predicate EntryTaken(env: Env, r: Reply, key: Digest) {
    r.Decided? && r.decision.durable ==> env.fits(EntryFor(r.decision, key))
  }

  /** After a durable settlement whose entry fits, the key is in the index or the store has failed for the rest of the boot. */
  lemma SettlementIsIndexed(env: Env, e: EngineState, d: Decision, key: Digest)
    requires key != ZERO_DIGEST && |e.store.d.idempotency| < e.store.limits.maxIdempotency
    requires EntryTaken(env, SettleDurable(env, e, d, key).1, key)
    ensures var f := SettleDurable(env, e, d, key).0;
            && IndexKept(e, f)
            && (f.storeFailed || FindEntry(f.store.d.idempotency, key).Some?)
  {
    hide Write, MaybeCheckpoint, CommitDecision, FindEntry;
    var (decided, written) := CommitDecision(env, e, d);
    DecisionKeepsIndex(env, e, d);
    var indexed := CommitIdempotency(env, decided, written, key);
    IndexWrite(decided, EntryFor(written, key));
    CheckpointKeepsIndex(indexed);
  }

  lemma IndexWrite(e: EngineState, entry: IdempotencyEntry)
    requires entry.key != ZERO_DIGEST && |e.store.d.idempotency| < e.store.limits.maxIdempotency
    ensures var f := Write(e, IdempotencyIndex(entry));
            IndexKept(e, f) && f.store.d.topology == e.store.d.topology && (f.storeFailed || FindEntry(f.store.d.idempotency, entry.key).Some?)
  {
    hide Commit;
    CommitKeepsIndex(e.store, IdempotencyIndex(entry));
    var f := Write(e, IdempotencyIndex(entry));
    if !f.store.failed {
      assert entry in f.store.d.idempotency;
    }
  }

  lemma SettlementKeepsIndex(env: Env, e: EngineState, d: Decision, key: Digest)
    requires |e.store.d.idempotency| < e.store.limits.maxIdempotency
    ensures IndexKept(e, SettleDurable(env, e, d, key).0) && SettleDurable(env, e, d, key).0.store.d.topology == e.store.d.topology
  {
    hide Write, MaybeCheckpoint, CommitDecision;
    var (decided, written) := CommitDecision(env, e, d);
    DecisionKeepsIndex(env, e, d);
    IndexedKeeps(env, decided, written, key);
    CheckpointKeepsIndex(CommitIdempotency(env, decided, written, key));
  }

  lemma IndexedKeeps(env: Env, e: EngineState, d: Decision, key: Digest)
    requires |e.store.d.idempotency| < e.store.limits.maxIdempotency
    ensures IndexKept(e, CommitIdempotency(env, e, d, key)) && CommitIdempotency(env, e, d, key).store.d.topology == e.store.d.topology
  {
    hide Commit;
    CommitKeepsIndex(e.store, IdempotencyIndex(EntryFor(d, key)));
  }

  lemma PutThenSettleKeepsIndex(env: Env, e: EngineState, kind: PutKind, r: AttemptRecord, d: Decision, checkpoints: bool)
    ensures Untouched(e, PutThenSettle(env, e, kind, r, d, checkpoints).0)
  {
    hide Write, MaybeCheckpoint, CommitDecision;
    var put := Write(e, AttemptPut(kind, r));
    WriteKeepsIndex(e, AttemptPut(kind, r));
    DecisionKeepsIndex(env, put, d);
    CheckpointKeepsIndex(CommitDecision(env, put, d).0);
  }

  lemma ExecuteKeepsIndex(env: Env, e: EngineState, plan: Plan)
    requires |e.store.d.idempotency| < e.store.limits.maxIdempotency
    ensures IndexKept(e, Execute(env, e, plan).0) && Execute(env, e, plan).0.store.d.topology == e.store.d.topology
  {
    hide Write, PutThenSettle, CommitDecision, CommitIdempotency, Conclude;
    match plan
    case Put(kind, r, d, checkpoints) => PutThenSettleKeepsIndex(env, e, kind, r, d, checkpoints);
    case CompleteEffect(v, d) =>
      WriteKeepsIndex(e, AttemptPut(Update, v));
      PutThenSettleKeepsIndex(env, Write(e, AttemptPut(Update, v)), Completion, v.(phase := Phase.Committed), d, true);
    case Revert(was, r, d, key) =>
      var put := Write(e, AttemptPut(PutKind.Rollback, r));
      WriteKeepsIndex(e, AttemptPut(PutKind.Rollback, r));
      var fenced := Write(put, Protocol.Fence(e, RollbackRevoked, was));
      WriteKeepsIndex(put, Protocol.Fence(e, RollbackRevoked, was));
      DecisionKeepsIndex(env, fenced, d);
      IndexedKeeps(env, CommitDecision(env, fenced, d).0, CommitDecision(env, fenced, d).1, key);
    case Reject(_, _) =>
    case Repeat(_) =>
    case Report(_) =>
  }

  lemma {:induction false} RevokeKeepsIndex(e: EngineState, kind: FenceKind, rest: seq<AttemptRecord>)
    ensures Untouched(e, RevokeAll(e, kind, rest))
    decreases |rest|
  {
    hide Write;
    if rest != [] && !e.store.failed {
      if HoldsAuthority(rest[0].phase) {
        var put := Write(e, AttemptPut(Update, Revoked(rest[0])));
        WriteKeepsIndex(e, AttemptPut(Update, Revoked(rest[0])));
        WriteKeepsIndex(put, Protocol.Fence(e, kind, rest[0]));
        RevokeKeepsIndex(RevokeOne(e, kind, rest[0]), kind, rest[1..]);
      } else {
        RevokeKeepsIndex(e, kind, rest[1..]);
      }
    }
  }

  lemma InstallKeepsIndex(e: EngineState, rec: Record, kind: FenceKind)
    requires !rec.IdempotencyIndex?
    ensures IndexKept(e, Install(e, rec, kind).0)
    ensures var t := Install(e, rec, kind).0.store.d.topology;
            t == e.store.d.topology || (rec.TopologyCommit? && t == rec.topology)
  {
    hide Commit, RevokeAll;
    var installed := Write(e, rec);
    CommitKeepsIndex(e.store, rec);
    RevokeKeepsIndex(installed, kind, installed.store.d.attempts);
  }

  lemma DeclineKeepsIndex(env: Env, e: EngineState, q: FailoverRequest, d: Decision, digest: Digest)
    requires |e.store.d.idempotency| < e.store.limits.maxIdempotency
    ensures IndexKept(e, Decline(env, e, q, d, digest).0) && Decline(env, e, q, d, digest).0.store.d.topology == e.store.d.topology
  {
    hide Write, SettleDurable, CountOf;
    var rec := AttemptPut(Create, DeclinedAttempt(e, q, d, digest));
    WriteKeepsIndex(e, rec);
    SettlementKeepsIndex(env, Write(e, rec), d, q.key);
  }

  lemma GrantKeepsIndex(env: Env, e: EngineState, q: FailoverRequest, d: Decision)
    requires |e.store.d.idempotency| < e.store.limits.maxIdempotency
    ensures IndexKept(e, GrantAuthority(env, e, q, d).0) && GrantAuthority(env, e, q, d).0.store.d.topology == e.store.d.topology
    ensures EntryTaken(env, GrantAuthority(env, e, q, d).1, q.key) && q.key != ZERO_DIGEST ==>
              var f := GrantAuthority(env, e, q, d).0;
              f.storeFailed || FindEntry(f.store.d.idempotency, q.key).Some?
  {
    hide Write, SettleDurable, GrantedAttempt, FindEntry;
    var r := GrantedAttempt(e, q, d);
    var staged := Write(e, AttemptPut(Create, r));
    WriteKeepsIndex(e, AttemptPut(Create, r));
    var authorized := Write(staged, AttemptPut(Update, r.(phase := Authorized)));
    WriteKeepsIndex(staged, AttemptPut(Update, r.(phase := Authorized)));
    SettlementKeepsIndex(env, authorized, d, q.key);
    if EntryTaken(env, GrantAuthority(env, e, q, d).1, q.key) && q.key != ZERO_DIGEST && !staged.store.failed && !authorized.store.failed {
      SettlementIsIndexed(env, authorized, d, q.key);
    }
  }

  lemma BoundKeepsIndex(env: Env, e: EngineState, q: FailoverRequest, link: LinkDefinition)
    requires |e.store.d.idempotency| < e.store.limits.maxIdempotency
    ensures IndexKept(e, DecideBound(env, e, q, link).0) && DecideBound(env, e, q, link).0.store.d.topology == e.store.d.topology
    ensures EntryTaken(env, DecideBound(env, e, q, link).1, q.key) && q.key != ZERO_DIGEST && GrantsAnew(DecideBound(env, e, q, link).1) ==>
              var f := DecideBound(env, e, q, link).0;
              f.storeFailed || FindEntry(f.store.d.idempotency, q.key).Some?
  {
    hide FailoverGate, SettleDurable, SettleUndurable, Decline, Grantable, SelectionInput, Verdicts.EvaluateFailure, FindEntry, GrantsAnew;
    var gate := FailoverGate(env, e, q);
    if GrantsAnew(DecideBound(env, e, q, link).1) { BoundGrants(env, e, q, link); }
    if gate.Shut? {
      SettlementKeepsIndex(env, e, gate.decision, q.key);
      UndurableStore(env, e, gate.decision);
    } else {
      match Verdicts.EvaluateFailure(e.book, Viewpoint(e), q.subject, q.generation)
      case NotEstablished(outcome, reason, extra) =>
        DeclineKeepsIndex(env, e, q, UnestablishedDecision(env, e, q, outcome, reason, extra), ZERO_DIGEST);
      case Established(p, i, n, digest) =>
        GrantableKeepsIndex(env, e, q, SelectionInput(e, q, link), Verdicts.Established(p, i, n, digest));
    }
  }

  lemma UndurableStore(env: Env, e: EngineState, d: Decision)
    ensures SettleUndurable(env, e, d).0.store == e.store && SettleUndurable(env, e, d).0.storeFailed == e.storeFailed
    ensures SettleUndurable(env, e, d).0.options == e.options
  {}

  lemma GrantableKeepsIndex(env: Env, e: EngineState, q: FailoverRequest, input: Selector.Input, v: Verdicts.FailureVerdict)
    requires |e.store.d.idempotency| < e.store.limits.maxIdempotency && v.Established?
    ensures IndexKept(e, Grantable(env, e, q, input, v).0) && Grantable(env, e, q, input, v).0.store.d.topology == e.store.d.topology
    ensures EntryTaken(env, Grantable(env, e, q, input, v).1, q.key) && q.key != ZERO_DIGEST && GrantsAnew(Grantable(env, e, q, input, v).1) ==>
              var f := Grantable(env, e, q, input, v).0;
              f.storeFailed || FindEntry(f.store.d.idempotency, q.key).Some?
  {
    hide Decline, SettleUndurable, GrantAuthority, Selector.Select, Selector.NamesInput, CountOf, FindEntry, Selector.Maximal;
    var o := Selector.Select(input);
    var declined := UnselectedDecision(env, e, q, o, v.digest);
    DeclineKeepsIndex(env, e, q, declined, v.digest);
    DeclineGrantsNothing(env, e, q, declined, v.digest);
    var spent := Conclude(RequestDecision(env, e, q).(candidates := o.assessments, evidenceDigest := v.digest, kind := Refuse),
                          Eligibility, Outcome.Refused, [Reasons.ATTEMPTS_EXHAUSTED]);
    UndurableStore(env, e, spent);
    UndurableKind(env, e, spent);
    if Selector.Acceptable(input, o) && o.status.Selected? {
      Selector.AcceptableIndex(input, o);
      GrantKeepsIndex(env, e, q, GrantDecision(env, e, q, o, o.assessments[o.selectedIndex.value], v));
    }
  }

  /** No call of a boot loses an index entry while the index has room. */
  lemma CallKeepsIndex(env: Env, e: EngineState, call: Call)
    requires |e.store.d.idempotency| < e.store.limits.maxIdempotency
    ensures IndexKept(e, Perform(env, e, call).0) && TopologyKept(e, Perform(env, e, call).0, call)
  {
    hide Install, Execute, DecideBound, Evidence.Observe, Evidence.ShapeFault, RequestFault, FindEntry, Write, Commit, Lineage.Checkpoint,
      PlanApplication, PlanVerification, PlanRollback, PlanResolution, TakeCheckpoint, Canonicalised, TopologyFault;
    match call
    case Observing(o) =>
    case SettingPolicy(p) => InstallKeepsIndex(e, PolicyCommit(p), PolicyChanged);
    case SettingTopology(t) => InstallKeepsIndex(e, TopologyCommit(Canonicalised(t)), TopologyChanged);
    case Requesting(q) => FailoverKeepsIndex(env, e, q);
    case Applying(r) => ExecuteKeepsIndex(env, e.(tick := e.tick + 1), PlanApplication(e.(tick := e.tick + 1), r));
    case Verifying(r) => ExecuteKeepsIndex(env, e.(tick := e.tick + 1), PlanVerification(e.(tick := e.tick + 1), r));
    case RollingBack(q) => ExecuteKeepsIndex(env, e.(tick := e.tick + 1), PlanRollback(env, e.(tick := e.tick + 1), q));
    case Resolving(q) => ExecuteKeepsIndex(env, e.(tick := e.tick + 1), PlanResolution(env, e.(tick := e.tick + 1), q));
    case Checkpointing => CheckpointKeepsIndex(e);
    case Closing => CloseKeepsIndex(e);
  }

  lemma CloseKeepsIndex(e: EngineState)
    ensures Untouched(e, Close(e).0)
  {
    hide WithEntry;
    CommitKeepsIndex(e.store, ShutdownMark(e.epoch, e.incarnation, e.store.d.lastSeq));
  }

  lemma FailoverKeepsIndex(env: Env, e: EngineState, q: FailoverRequest)
    requires |e.store.d.idempotency| < e.store.limits.maxIdempotency
    ensures IndexKept(e, RequestFailover(env, e, q).0) && RequestFailover(env, e, q).0.store.d.topology == e.store.d.topology
    ensures EntryTaken(env, RequestFailover(env, e, q).1, q.key) && q.key != ZERO_DIGEST && GrantsAnew(RequestFailover(env, e, q).1) ==>
              var f := RequestFailover(env, e, q).0;
              f.storeFailed || FindEntry(f.store.d.idempotency, q.key).Some?
  {
    hide DecideBound, RequestFault, FindEntry, ReplayDecision;
    var t := e.(tick := e.tick + 1);
    var link := Find(t.store.d.topology.links, q.subject);
    ReplayIsNoGrant(t, q);
    if link.Some? { BoundKeepsIndex(env, t, q, link.value); }
  }

  // ---- the session theorem ----

  /** What a session leaves: the engine, and the non-zero keys under which authority was granted, in order. */
  datatype Session = Session(e: EngineState, granted: seq<Digest>)

  /** One boot's calls, each with what the medium does to its writes. */
  ghost function Converse(env: Env, e: EngineState, calls: seq<(Call, Fate)>): Session
    decreases |calls|
  {
    if calls == [] then Session(e, [])
    else
      var n := |calls| - 1;
      var before := Converse(env, e, calls[..n]);
      var call := calls[n].0;
      var (f, reply) := Perform(env, Fated(before.e, calls[n].1), call);
      Session(f, if call.Requesting? && call.request.key != ZERO_DIGEST && GrantsAnew(reply) then before.granted + [call.request.key]
                 else before.granted)
  }

  /** The premise: the index has room before each call, so it evicts nothing. */
  ghost predicate IndexHasRoom(env: Env, e: EngineState, calls: seq<(Call, Fate)>) {
    forall k :: 0 <= k < |calls| ==>
      |Converse(env, e, calls[..k]).e.store.d.idempotency| < Converse(env, e, calls[..k]).e.store.limits.maxIdempotency
  }

  /** The premise: the entry of each grant of the session is one that the index takes. */
  ghost predicate GrantsFit(env: Env, e: EngineState, calls: seq<(Call, Fate)>) {
    forall k :: 0 <= k < |calls| && calls[k].0.Requesting? ==>
      var reply := Perform(env, Fated(Converse(env, e, calls[..k]).e, calls[k].1), calls[k].0).1;
      GrantsAnew(reply) ==> EntryTaken(env, reply, calls[k].0.request.key)
  }

  /** Every granted key is in the index, or nothing more will be granted; and no key was granted twice. */
  ghost predicate OncePerKey(s: Session) {
    && (s.e.storeFailed || forall i :: 0 <= i < |s.granted| ==> FindEntry(s.e.store.d.idempotency, s.granted[i]).Some?)
    && (forall i, j :: 0 <= i < j < |s.granted| ==> s.granted[i] != s.granted[j])
  }

  lemma GrantKeyIsNew(env: Env, e: EngineState, q: FailoverRequest)
    requires GrantsAnew(RequestFailover(env, e, q).1)
    ensures !e.storeFailed && FindEntry(e.store.d.idempotency, q.key).None?
  {
    hide DecideBound, RequestFault, FindEntry;
    ReplayIsNoGrant(e.(tick := e.tick + 1), q);
  }

  /**
   * Over any calls of one boot, with any write failures, no non-zero key is ever granted twice,
   * as long as the index evicts nothing and takes the entries of the grants made.
   */
  lemma {:induction false} OneGrantPerKey(env: Env, e: EngineState, calls: seq<(Call, Fate)>)
    requires IndexHasRoom(env, e, calls) && GrantsFit(env, e, calls)
    ensures OncePerKey(Converse(env, e, calls))
    decreases |calls|
  {
    hide Perform, RequestFailover, FindEntry, GrantsAnew, EntryTaken, TopologyKept;
    if calls != [] {
      var n := |calls| - 1;
      RoomBefore(env, e, calls);
      FitsBefore(env, e, calls);
      OneGrantPerKey(env, e, calls[..n]);
      var before := Converse(env, e, calls[..n]);
      var b := Fated(before.e, calls[n].1);
      var call := calls[n].0;
      var (f, reply) := Perform(env, b, call);
      CallKeepsIndex(env, b, call);
      forall i | 0 <= i < |before.granted| && FindEntry(before.e.store.d.idempotency, before.granted[i]).Some?
        ensures FindEntry(f.store.d.idempotency, before.granted[i]).Some?
      {
        FindInLonger(b.store.d.idempotency, f.store.d.idempotency, before.granted[i]);
      }
      if call.Requesting? {
        PerformRequest(env, b, call.request);
        FailoverKeepsIndex(env, b, call.request);
        if GrantsAnew(reply) { GrantKeyIsNew(env, b, call.request); }
      }
    }
  }

  lemma PerformRequest(env: Env, e: EngineState, q: FailoverRequest)
    ensures Perform(env, e, Requesting(q)) == RequestFailover(env, e, q)
  {
    hide RequestFailover;
  }

  lemma FitsBefore(env: Env, e: EngineState, calls: seq<(Call, Fate)>)
    requires calls != [] && GrantsFit(env, e, calls)
    ensures GrantsFit(env, e, calls[..|calls| - 1])
  {
    hide Converse, Perform, GrantsAnew, EntryTaken;
    var front := calls[..|calls| - 1];
    forall k | 0 <= k < |front| && front[k].0.Requesting?
      ensures var reply := Perform(env, Fated(Converse(env, e, front[..k]).e, front[k].1), front[k].0).1;
              GrantsAnew(reply) ==> EntryTaken(env, reply, front[k].0.request.key)
    {
      assert front[..k] == calls[..k] && front[k] == calls[k];
    }
  }

  lemma RoomBefore(env: Env, e: EngineState, calls: seq<(Call, Fate)>)
    requires calls != [] && IndexHasRoom(env, e, calls)
    ensures var n := |calls| - 1;
            && IndexHasRoom(env, e, calls[..n])
            && |Converse(env, e, calls[..n]).e.store.d.idempotency| < Converse(env, e, calls[..n]).e.store.limits.maxIdempotency
  {
    hide Converse;
    var front := calls[..|calls| - 1];
    forall k | 0 <= k < |front|
      ensures |Converse(env, e, front[..k]).e.store.d.idempotency| < Converse(env, e, front[..k]).e.store.limits.maxIdempotency
    {
      assert front[..k] == calls[..k];
    }
  }
}
