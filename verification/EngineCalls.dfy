/** The calls that change definitions, and the failover request itself, keep the engine's invariant. */
module EngineCalls {
  import opened Basics
  import opened Records
  import opened Lineage
  import opened Table
  import opened Invariant
  import opened Lifecycle
  import opened Refinement
  import opened StoreSafety
  import opened Protocol
  import opened EngineSafety
  import Evidence
  import Verdicts
  import Resolution
  import Selector

  // ---- revoking every holder ----

  /** While revoking: who still holds authority is among `rest`, and `rest` still stands as it was listed. */
  ghost predicate Revoking(d: Lineage.DurableState, rest: seq<AttemptRecord>) {
    && (forall r :: r in d.attempts && HoldsAuthority(r.phase) ==> r in rest)
    && (forall r :: r in d.attempts ==> !r.phase.Evaluated?)
    && (forall r :: r in rest ==> Lookup(d.attempts, r.subject, r.seqno) == Some(r))
    && UniqueKeys(rest)
  }

  lemma RevokeIsLegal(d: Lineage.DurableState, h: History, r: AttemptRecord, limits: Limits)
    requires Inv(d, h) && |d.attempts| <= limits.maxAttempts
    requires Lookup(d.attempts, r.subject, r.seqno) == Some(r) && HoldsAuthority(r.phase)
    ensures Legal(d, h, AttemptPut(Update, Revoked(r)), limits)
  {
    FoundIs(d, h, r.subject, r.seqno);
    hide Inv, Legal, AddReason;
    UpdateIsLegal(d, h, Update, r, Revoked(r), limits);
  }

  /** One revocation: the head of the list no longer holds authority, the others stand as listed. */
  lemma RevokePut(d: Lineage.DurableState, h: History, rest: seq<AttemptRecord>, limits: Limits)
    requires Inv(d, h) && |d.attempts| <= limits.maxAttempts && rest != [] && HoldsAuthority(rest[0].phase) && Revoking(d, rest)
    ensures Revoking(After(d, AttemptPut(Update, Revoked(rest[0])), limits), rest[1..])
  {
    hide Inv, Legal, After, AddReason, Lookup;
    var r := rest[0];
    RevokeIsLegal(d, h, r, limits);
    PutView(d, h, Update, Revoked(r), limits);
    var f := After(d, AttemptPut(Update, Revoked(r)), limits);
    assert rest == [r] + rest[1..];
    forall x | x in rest[1..] ensures Lookup(f.attempts, x.subject, x.seqno) == Some(x) {
      LookupSome(d.attempts, x.subject, x.seqno);
      assert !SameKey(x, r);
      LookupIs(f.attempts, x);
    }
    LookupSome(d.attempts, r.subject, r.seqno);
    forall x | x in f.attempts && HoldsAuthority(x.phase) ensures x in rest[1..] {
      assert x in d.attempts && !SameKey(x, r);
    }
  }

  lemma RevokingTail(d: Lineage.DurableState, rest: seq<AttemptRecord>)
    requires Revoking(d, rest) && rest != [] && !HoldsAuthority(rest[0].phase)
    ensures Revoking(d, rest[1..])
  {
    assert rest == [rest[0]] + rest[1..];
  }

  lemma RevokingReads(d: Lineage.DurableState, e: Lineage.DurableState, rest: seq<AttemptRecord>)
    requires SameView(d, e)
    ensures Revoking(d, rest) == Revoking(e, rest)
  {}

  /** Sound so far, with who is left to revoke in `rest`. */
  ghost predicate Midway(e: EngineState, h: History, rest: seq<AttemptRecord>) {
    StoreInv(e.store, h) && Matched(e) && (!e.store.failed ==> Revoking(e.store.d, rest))
  }

  lemma RevokeOneMidway(e: EngineState, h: History, kind: FenceKind, rest: seq<AttemptRecord>)
    requires Midway(e, h, rest) && rest != [] && HoldsAuthority(rest[0].phase) && !e.store.failed
    ensures Midway(RevokeOne(e, kind, rest[0]), h, rest[1..])
    ensures Safe(e.store, h, RevokeOne(e, kind, rest[0]).store, h)
    ensures RevokeOne(e, kind, rest[0]).options == e.options
  {
    hide Inv, Legal, Describes, Evolves, After, Revoking;
    var r := rest[0];
    RestFound(e.store.d, rest);
    RevokeIsLegal(e.store.d, h, r, e.store.limits);
    RevokePut(e.store.d, h, rest, e.store.limits);
    CommitSafe(e.store, h, AttemptPut(Update, Revoked(r)));
    var put := Write(e, AttemptPut(Update, Revoked(r)));
    PutView(e.store.d, h, Update, Revoked(r), e.store.limits);
    if !put.store.failed {
      FenceCalm(put, h, Protocol.Fence(e, kind, r).fence);
      RevokingReads(put.store.d, Write(put, Protocol.Fence(e, kind, r)).store.d, rest[1..]);
      SafeOn(e.store, h, put.store, h, Write(put, Protocol.Fence(e, kind, r)).store, h);
    }
  }

  lemma RestFound(d: Lineage.DurableState, rest: seq<AttemptRecord>)
    requires Revoking(d, rest) && rest != []
    ensures Lookup(d.attempts, rest[0].subject, rest[0].seqno) == Some(rest[0])
  {}

  lemma {:induction false} RevokeAllMidway(e: EngineState, h: History, kind: FenceKind, rest: seq<AttemptRecord>)
    requires Midway(e, h, rest)
    ensures Midway(RevokeAll(e, kind, rest), h, [])
    ensures Safe(e.store, h, RevokeAll(e, kind, rest).store, h)
    decreases |rest|
  {
    hide StoreInv, Revoking, Safe, RevokeOne, Matched;
    SafeHere(e, h, rest);
    if rest == [] {
    } else if e.store.failed {
      FailedMidway(e, h, rest);
    } else if HoldsAuthority(rest[0].phase) {
      var one := RevokeOne(e, kind, rest[0]);
      RevokeOneMidway(e, h, kind, rest);
      RevokeAllMidway(one, h, kind, rest[1..]);
      SafeOn(e.store, h, one.store, h, RevokeAll(one, kind, rest[1..]).store, h);
    } else {
      RevokingTail(e.store.d, rest);
      RevokeAllMidway(e, h, kind, rest[1..]);
    }
  }

  lemma SafeHere(e: EngineState, h: History, rest: seq<AttemptRecord>)
    requires Midway(e, h, rest)
    ensures Safe(e.store, h, e.store, h)
  {
    SafeSelf(e.store, h);
  }

  lemma FailedMidway(e: EngineState, h: History, rest: seq<AttemptRecord>)
    requires Midway(e, h, rest) && e.store.failed
    ensures Midway(e, h, [])
  {}

  /** With nobody left to revoke the table is settled under whatever the definitions now are. */
  lemma RevokedBoundary(env: Env, d: Lineage.DurableState)
    requires Revoking(d, [])
    ensures Boundary(env, d)
    ensures forall r :: r in d.attempts ==> !HoldsAuthority(r.phase)
  {}

  /** A new definition, and the revocation of every holder that follows it. */
  lemma InstallSteps(env: Env, e: EngineState, h: History, rec: Record, kind: FenceKind)
    requires EngineInv(env, e, h) && Installs(rec) && (!e.store.failed ==> Legal(e.store.d, h, rec, e.store.limits))
    ensures Stepped(env, e, h, Install(e, rec, kind).0)
    ensures !Install(e, rec, kind).0.store.failed ==>
              forall r :: r in Install(e, rec, kind).0.store.d.attempts ==> !HoldsAuthority(r.phase)
  {
    hide Inv, Legal, Describes, Evolves, After, RevokeAll, Grow;
    CommitSafe(e.store, h, rec);
    var installed := Write(e, rec);
    var k := Grow(h, installed.store.disk);
    SafeInv(e.store, h, installed.store, k);
    if installed.store.failed {
      assert installed.store.d == e.store.d;
    } else {
      InstallView(e.store.d, rec, e.store.limits);
      InstallMidway(env, e, h, installed, k);
      RevokeAllMidway(installed, k, kind, installed.store.d.attempts);
      var revoked := RevokeAll(installed, kind, installed.store.d.attempts);
      SafeOn(e.store, h, installed.store, k, revoked.store, k);
      RevokeDefinitions(installed, kind, installed.store.d.attempts);
      GrowReads(h, installed.store.disk, revoked.store.disk);
      if !revoked.store.failed { RevokedBoundary(env, revoked.store.d); }
    }
  }

  lemma InstallView(d: Lineage.DurableState, rec: Record, limits: Limits)
    requires Installs(rec)
    ensures After(d, rec, limits).attempts == d.attempts
    ensures After(d, rec, limits).epoch == d.epoch && After(d, rec, limits).coordinator == d.coordinator
  {}

  lemma InstallMidway(env: Env, e: EngineState, h: History, f: EngineState, k: History)
    requires EngineInv(env, e, h) && StoreInv(f.store, k) && Matched(f) && !f.store.failed && !e.store.failed
    requires f.store.d.attempts == e.store.d.attempts
    ensures Midway(f, k, f.store.d.attempts)
  {
    forall r | r in f.store.d.attempts ensures Lookup(f.store.d.attempts, r.subject, r.seqno) == Some(r) && !r.phase.Evaluated? {
      LookupIs(f.store.d.attempts, r);
      assert Settled(env, e.store.d, r);
    }
  }

  lemma WriteDefinitions(e: EngineState, rec: Record)
    requires !Installs(rec)
    ensures var f := Write(e, rec);
            && (e.store.disk.policy == e.store.d.policy && e.store.disk.topology == e.store.d.topology ==>
                  && f.store.disk.policy == e.store.disk.policy && f.store.disk.topology == e.store.disk.topology
                  && f.store.d.policy == e.store.d.policy && f.store.d.topology == e.store.d.topology)
  {}

  /** Revoking leaves the definitions alone, on the medium too. */
  lemma {:induction false} RevokeDefinitions(e: EngineState, kind: FenceKind, rest: seq<AttemptRecord>)
    requires e.store.disk.policy == e.store.d.policy && e.store.disk.topology == e.store.d.topology
    ensures var f := RevokeAll(e, kind, rest);
            f.store.disk.policy == e.store.disk.policy && f.store.disk.topology == e.store.disk.topology
    decreases |rest|
  {
    if rest != [] && !e.store.failed {
      if HoldsAuthority(rest[0].phase) {
        var put := Write(e, AttemptPut(Update, Revoked(rest[0])));
        hide Write;
        WriteDefinitions(e, AttemptPut(Update, Revoked(rest[0])));
        WriteDefinitions(put, Protocol.Fence(e, kind, rest[0]));
      }
      RevokeDefinitions(if HoldsAuthority(rest[0].phase) then RevokeOne(e, kind, rest[0]) else e, kind, rest[1..]);
    }
  }

  lemma SetPolicySteps(env: Env, e: EngineState, h: History, p: Policy)
    requires EngineInv(env, e, h)
    ensures Stepped(env, e, h, SetPolicy(env, e, p).0)
  {
    StandsStill(env, e, h);
    hide EngineInv, Install, Stepped;
    InstallSteps(env, e, h, PolicyCommit(p), PolicyChanged);
  }

  lemma SetTopologySteps(env: Env, e: EngineState, h: History, t: Topology)
    requires EngineInv(env, e, h)
    requires NothingReinstated(h, e.store.disk.topology, Canonicalised(t))
    ensures Stepped(env, e, h, SetTopology(env, e, t).0)
  {
    StandsStill(env, e, h);
    TopologyIsLegal(env, e, h, Canonicalised(t));
    hide EngineInv, Install, Stepped, Canonicalised, NothingReinstated, Legal;
    InstallSteps(env, e, h, TopologyCommit(Canonicalised(t)), TopologyChanged);
  }

  lemma TopologyIsLegal(env: Env, e: EngineState, h: History, t: Topology)
    requires EngineInv(env, e, h) && NothingReinstated(h, e.store.disk.topology, t)
    ensures !e.store.failed ==> Legal(e.store.d, h, TopologyCommit(t), e.store.limits)
  {}

  // ---- observations, compaction, closing ----

  lemma PublishSteps(env: Env, e: EngineState, h: History, o: Evidence.Observation)
    requires EngineInv(env, e, h)
    ensures Stepped(env, e, h, Publish(env, e, o).0)
  {
    StandsStill(env, e, h);
    hide StoreInv, Boundary, Safe, Evidence.Observe, Evidence.ShapeFault;
  }

  lemma CheckpointSteps(env: Env, e: EngineState, h: History)
    requires EngineInv(env, e, h)
    ensures Stepped(env, e, h, CheckpointCall(e).0)
  {
    StandsStill(env, e, h);
    CheckpointCalm(e, h);
    CalmKeeps(env, e, h, TakeCheckpoint(e).0);
  }

  lemma CloseSteps(env: Env, e: EngineState, h: History)
    requires EngineInv(env, e, h)
    ensures Stepped(env, e, h, Close(e).0)
  {
    StandsStill(env, e, h);
    if !e.closed {
      var mark := ShutdownMark(e.epoch, e.incarnation, e.store.d.lastSeq);
      BookkeepingSafe(e.store, h, mark);
      var s := Commit(e.store, mark);
      CheckpointSafe(s, h);
      hide StoreInv, Commit, Evolves, Checkpoint, Boundary;
      SafeOn(e.store, h, s, h, Checkpoint(s).0, h);
      var f := Close(e).0;
      assert SameView(e.store.d, f.store.d);
      SafeInv(e.store, h, f.store, h);
      if !f.store.failed { BoundaryReads(env, e.store.d, f.store.d); }
    }
  }

  // ---- failover ----

  /** An open gate means nothing stands in the way of a new attempt of the pair. */
  lemma OpenGateIsFree(env: Env, e: EngineState, h: History, q: FailoverRequest)
    requires EngineInv(env, e, h) && !e.store.failed && FailoverGate(env, e, q).Open?
    ensures forall x :: x in e.store.d.attempts && OfPair(x, q.subject, q.generation) ==> !Occupies(e.store.d, x)
  {
    var d := e.store.d;
    GateOpenMeans(env, e, q);
    hide FailoverGate;
    forall x | x in d.attempts && OfPair(x, q.subject, q.generation) ensures !Occupies(d, x) {
      assert Settled(env, d, x);
      if x.phase.Interrupted? {
        var latest := Latest(d.attempts, q.subject, q.generation).value;
        OccupiersMeet(d, h, x, latest);
      }
    }
  }

  lemma GateOpenMeans(env: Env, e: EngineState, q: FailoverRequest)
    requires FailoverGate(env, e, q).Open?
    ensures forall x :: x in e.store.d.attempts && OfPair(x, q.subject, q.generation) ==> !Active(e.store.d, x)
    ensures var latest := Latest(e.store.d.attempts, q.subject, q.generation);
            latest.Some? ==> !latest.value.phase.Interrupted?
  {
    assert ActiveAuthority(e.store.d, q.subject, q.generation).None?;
  }

  /** What a request that passed its gate may create. */
  lemma CreateIsLegal(env: Env, e: EngineState, h: History, q: FailoverRequest, r: AttemptRecord)
    requires EngineInv(env, e, h) && !e.store.failed && FailoverGate(env, e, q).Open?
    requires Defines(e.store.d.topology, q.subject, q.generation) && Takes(e.store.d.attempts, r.subject, r.seqno, e.store.limits.maxAttempts)
    requires r.subject == q.subject && r.generation == q.generation
    requires r.seqno == CountOf(e.store.d.attempts, q.subject, q.generation) + 1 && r.seqno <= e.store.d.policy.maxAttempts
    requires r.authority.epoch <= e.store.d.epoch && r.createSeq == 0
    requires PutAllowed(Create, r.phase)
    ensures Legal(e.store.d, h, AttemptPut(Create, r), e.store.limits)
  {
    OpenGateIsFree(env, e, h, q);
  }

  /** The next attempt of the pair is over the budget, or the table takes it. */
  predicate NextFits(e: EngineState, q: FailoverRequest) {
    var count := CountOf(e.store.d.attempts, q.subject, q.generation);
    count >= e.store.d.policy.maxAttempts || Takes(e.store.d.attempts, q.subject, count + 1, e.store.limits.maxAttempts)
  }

  /** A request that creates an attempt finds room for it; one that creates none needs none. */
  predicate HasRoom(env: Env, e: EngineState, q: FailoverRequest) {
    || NextFits(e, q)
    || FindEntry(e.store.d.idempotency, q.key).Some?
    || !Defines(e.store.d.topology, q.subject, q.generation)
    || FailoverGate(env, e, q).Shut?
  }

  lemma DeclineSteps(env: Env, e: EngineState, h: History, q: FailoverRequest, d: Decision, digest: Digest)
    requires EngineInv(env, e, h) && FailoverGate(env, e, q).Open? && Defines(e.store.d.topology, q.subject, q.generation) && NextFits(e, q)
    requires d.attemptSeq == CountOf(e.store.d.attempts, q.subject, q.generation) + 1
    ensures Stepped(env, e, h, Decline(env, e, q, d, digest).0)
  {
    hide FailoverGate, Legal, StoreInv, Safe, Write, SettleDurable, SettleUndurable, Stepped, Calm, Grow, Boundary, CountOf, Defines;
    UndurableSteps(env, e, h, d.(reasons := d.reasons + [Because(Reasons.ATTEMPTS_EXHAUSTED)]));
    if CountOf(e.store.d.attempts, q.subject, q.generation) < e.store.d.policy.maxAttempts {
      var r := DeclinedAttempt(e, q, d, digest);
      if !e.store.failed { CreateIsLegal(env, e, h, q, r); }
      EngineInvMeans(env, e, h);
      PutSteps(env, e, h, Create, r);
      var recorded := Write(e, AttemptPut(Create, r));
      if !recorded.store.failed {
        EngineInvMeans(env, recorded, h);
        SettleDurableCalm(env, recorded, h, d, q.key);
        PutThenCalm(env, e, h, recorded, SettleDurable(env, recorded, d, q.key).0);
      }
    }
  }

  /** What the grant's two puts need of the attempt. */
  ghost predicate ReadyToGrant(env: Env, e: EngineState, q: FailoverRequest, r: AttemptRecord) {
    && r.subject == q.subject && r.generation == q.generation && r.phase.Evaluated? && !r.revalidated
    && r.seqno == CountOf(e.store.d.attempts, q.subject, q.generation) + 1 && r.seqno <= e.store.d.policy.maxAttempts
    && r.createSeq == 0
    && r.authority.epoch == e.epoch && r.authority.coordinator == e.incarnation
    && Bound(env, e.store.d, r.authority)
  }

  lemma AuthorizeIsLegal(env: Env, d: Lineage.DurableState, h: History, r: AttemptRecord, limits: Limits)
    requires Inv(d, h) && |d.attempts| <= limits.maxAttempts && r.phase.Evaluated? && r.createSeq == 0 && r.authority.epoch <= d.epoch
    requires var was := Lookup(d.attempts, r.subject, r.seqno); was.Some? && Bare(was.value) == Bare(r)
    ensures Legal(d, h, AttemptPut(Update, r.(phase := Authorized)), limits)
  {
    var was := Lookup(d.attempts, r.subject, r.seqno).value;
    assert Bare(was).phase == was.phase && Bare(was).generation == was.generation;
    assert Bare(r).phase == r.phase && Bare(r).generation == r.generation;
  }

  /** Staging breaks the boundary only at its own key; authorizing restores it. */
  lemma GrantSteps(env: Env, e: EngineState, h: History, q: FailoverRequest, d: Decision)
    requires EngineInv(env, e, h) && FailoverGate(env, e, q).Open? && Defines(e.store.d.topology, q.subject, q.generation) && NextFits(e, q)
    requires ReadyToGrant(env, e, q, GrantedAttempt(e, q, d))
    ensures Stepped(env, e, h, GrantAuthority(env, e, q, d).0)
  {
    var r := GrantedAttempt(e, q, d);
    var staged := Write(e, AttemptPut(Create, r));
    hide FailoverGate, Legal, Inv, Settled, Boundary, StoreInv, Safe, Write, SettleDurable, Calm, Grow, CountOf, Defines, GrantedAttempt;
    EngineInvMeans(env, e, h);
    if !e.store.failed { CreateIsLegal(env, e, h, q, r); }
    WriteSafe(e, h, AttemptPut(Create, r));
    SafeInv(e.store, h, staged.store, h);
    if staged.store.failed {
      FailedSteps(env, e, h, staged);
    } else {
      WriteSucceeds(e, AttemptPut(Create, r));
      StagedOthers(env, e, h, r);
      SafeMeans(staged.store, h);
      AuthorizeIsLegal(env, staged.store.d, h, r, staged.store.limits);
      AuthorizedSettled(env, e, staged.store.d, q, r);
      PutSteps(env, staged, h, Update, r.(phase := Authorized));
      var authorized := Write(staged, AttemptPut(Update, r.(phase := Authorized)));
      JoinSteps(env, e, h, staged, authorized);
      if !authorized.store.failed {
        EngineInvMeans(env, authorized, h);
        SettleDurableCalm(env, authorized, h, d, q.key);
        PutThenCalm(env, e, h, authorized, SettleDurable(env, authorized, d, q.key).0);
      }
    }
  }

  lemma WriteSafe(e: EngineState, h: History, rec: Record)
    requires StoreInv(e.store, h) && (!e.store.failed ==> Legal(e.store.d, h, rec, e.store.limits)) && !Installs(rec) && !rec.Boot?
    requires Matched(e)
    ensures Safe(e.store, h, Write(e, rec).store, h)
    ensures Matched(Write(e, rec))
  {
    CommitSafe(e.store, h, rec);
    hide StoreInv, Legal, Safe;
    KeepsView(e.store.d, rec, e.store.limits);
  }

  lemma KeepsView(d: Lineage.DurableState, rec: Record, limits: Limits)
    requires !rec.Boot?
    ensures After(d, rec, limits).epoch == d.epoch && After(d, rec, limits).coordinator == d.coordinator
  {}

  lemma SafeMeans(s: StoreState, h: History)
    requires StoreInv(s, h)
    ensures Inv(s.d, h) && |s.d.attempts| <= s.limits.maxAttempts
  {}

  lemma FailedSteps(env: Env, e: EngineState, h: History, f: EngineState)
    requires Safe(e.store, h, f.store, h) && Matched(f) && f.store.failed
    ensures Stepped(env, e, h, f)
  {
    SafeInv(e.store, h, f.store, h);
  }

  lemma JoinSteps(env: Env, e: EngineState, h: History, f: EngineState, g: EngineState)
    requires Safe(e.store, h, f.store, h) && Stepped(env, f, h, g) && EngineInv(env, g, h) && Grow(h, g.store.disk) == h
    ensures Stepped(env, e, h, g)
  {
    hide EngineInv, Safe, Grow;
    SafeOn(e.store, h, f.store, h, g.store, h);
  }

  lemma StagedOthers(env: Env, e: EngineState, h: History, r: AttemptRecord)
    requires EngineInv(env, e, h) && !e.store.failed && Legal(e.store.d, h, AttemptPut(Create, r), e.store.limits)
    ensures var f := After(e.store.d, AttemptPut(Create, r), e.store.limits);
            && (forall x :: x in f.attempts && !SameKey(x, r) ==> Settled(env, f, x))
            && Lookup(f.attempts, r.subject, r.seqno).Some? && Bare(Lookup(f.attempts, r.subject, r.seqno).value) == Bare(r)
            && f.policy == e.store.d.policy && f.topology == e.store.d.topology
            && f.epoch == e.store.d.epoch && f.coordinator == e.store.d.coordinator
  {
    EngineInvMeans(env, e, h);
    PutView(e.store.d, h, Create, r, e.store.limits);
    PutFound(e.store.d, h, Create, r, e.store.limits);
    StoredBare(Create, r, e.store.d.lastSeq + 1);
    hide Legal, Inv, After, Settled, EngineInv, Bare;
    var f := After(e.store.d, AttemptPut(Create, r), e.store.limits);
    forall x | x in f.attempts && !SameKey(x, r) ensures Settled(env, f, x) {
      SettledReads(env, e.store.d, f, x, x);
    }
  }

  lemma AuthorizedSettled(env: Env, e: EngineState, d: Lineage.DurableState, q: FailoverRequest, r: AttemptRecord)
    requires Matched(e) && ReadyToGrant(env, e, q, r)
    requires d.policy == e.store.d.policy && d.topology == e.store.d.topology && d.epoch == e.store.d.epoch && d.coordinator == e.store.d.coordinator
    ensures Settled(env, d, r.(phase := Authorized))
  {}

  lemma SelectedSteps(env: Env, e: EngineState, h: History, q: FailoverRequest, input: Selector.Input, v: Verdicts.FailureVerdict)
    requires EngineInv(env, e, h) && FailoverGate(env, e, q).Open? && Defines(e.store.d.topology, q.subject, q.generation) && NextFits(e, q)
    requires v.Established?
    ensures Stepped(env, e, h, Grantable(env, e, q, input, v).0)
  {
    hide EngineInv, FailoverGate, Decline, SettleUndurable, GrantAuthority, Selector.Select, Selector.Acceptable, Selector.NamesInput,
      Stepped, CountOf, GrantDecision, Defines, GrantedAttempt, ReadyToGrant;
    var o := Selector.Select(input);
    StandsStill(env, e, h);
    GrantIsGrantable(env, e, h, q, o, v);
    DeclineSteps(env, e, h, q, UnselectedDecision(env, e, q, o, v.digest), v.digest);
    UndurableSteps(env, e, h, Conclude(RequestDecision(env, e, q).(candidates := o.assessments, evidenceDigest := v.digest, kind := Refuse),
                                       Eligibility, Outcome.Refused, [Reasons.ATTEMPTS_EXHAUSTED]));
    if o.status.Selected? && CountOf(e.store.d.attempts, q.subject, q.generation) < e.store.d.policy.maxAttempts
       && Selector.Acceptable(input, o)
    {
      Selector.AcceptableIndex(input, o);
      GrantSteps(env, e, h, q, GrantDecision(env, e, q, o, o.assessments[o.selectedIndex.value], v));
    }
  }

  lemma GrantIsGrantable(env: Env, e: EngineState, h: History, q: FailoverRequest, o: Selector.Selection, v: Verdicts.FailureVerdict)
    requires EngineInv(env, e, h) && v.Established?
    ensures CountOf(e.store.d.attempts, q.subject, q.generation) < e.store.d.policy.maxAttempts ==>
              forall chosen: Assessment :: ReadyToGrant(env, e, q, GrantedAttempt(e, q, GrantDecision(env, e, q, o, chosen, v)))
  {
    hide CountOf, Latest, Listed;
  }

  /** A bound request, whatever its gate, evidence and selection come to. */
  lemma BoundSteps(env: Env, e: EngineState, h: History, q: FailoverRequest, link: LinkDefinition)
    requires EngineInv(env, e, h) && Defines(e.store.d.topology, q.subject, q.generation)
    requires NextFits(e, q) || FailoverGate(env, e, q).Shut?
    ensures Stepped(env, e, h, DecideBound(env, e, q, link).0)
  {
    hide EngineInv, FailoverGate, SettleDurable, SettleUndurable, Decline, Grantable, SelectionInput, Verdicts.EvaluateFailure, Stepped, CountOf, Defines;
    var gate := FailoverGate(env, e, q);
    if gate.Shut? {
      DurableSteps(env, e, h, gate.decision, q.key);
      UndurableSteps(env, e, h, gate.decision);
    } else {
      match Verdicts.EvaluateFailure(e.book, Viewpoint(e), q.subject, q.generation)
      case NotEstablished(outcome, reason, extra) =>
        DeclineSteps(env, e, h, q, UnestablishedDecision(env, e, q, outcome, reason, extra), ZERO_DIGEST);
      case Established(p, i, n, digest) =>
        SelectedSteps(env, e, h, q, SelectionInput(e, q, link), Verdicts.Established(p, i, n, digest));
    }
  }

  lemma DurableSteps(env: Env, e: EngineState, h: History, d: Decision, key: Digest)
    requires EngineInv(env, e, h)
    ensures Stepped(env, e, h, SettleDurable(env, e, d, key).0)
  {
    EngineInvMeans(env, e, h);
    hide EngineInv, StoreInv, SettleDurable, Calm, Stepped;
    SettleDurableCalm(env, e, h, d, key);
    CalmKeeps(env, e, h, SettleDurable(env, e, d, key).0);
  }

  /** The clock says nothing to the gate, nor about room. */
  lemma GateTicks(env: Env, e: EngineState, q: FailoverRequest)
    ensures FailoverGate(env, e.(tick := e.tick + 1), q) == FailoverGate(env, e, q)
    ensures NextFits(e.(tick := e.tick + 1), q) == NextFits(e, q)
  {}

  lemma FailoverSteps(env: Env, e: EngineState, h: History, q: FailoverRequest)
    requires EngineInv(env, e, h) && HasRoom(env, e, q)
    ensures Stepped(env, e, h, RequestFailover(env, e, q).0)
  {
    hide EngineInv, DecideBound, RequestFault, FindEntry, Stepped, ReplayDecision, FailoverGate, NextFits;
    var t := e.(tick := e.tick + 1);
    TickKeeps(env, e, h);
    var link := Find(t.store.d.topology.links, q.subject);
    if link.Some? && link.value.generation == q.generation && FindEntry(e.store.d.idempotency, q.key).None? {
      GateTicks(env, e, q);
      BoundSteps(env, t, h, q, link.value);
      SteppedReads(env, t, h, e, DecideBound(env, t, q, link.value).0);
    }
  }
}
