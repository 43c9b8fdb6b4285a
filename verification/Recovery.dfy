/** When a process that died can be followed by another: two ways in which it cannot. */
module Recovery {
  import opened Basics
  import opened Records
  import opened Lineage
  import opened Invariant
  import opened Table
  import opened Refinement
  import opened StoreSafety
  import opened Protocol
  import opened EngineSafety
  import opened Restart
  import opened Runs
  import opened Outcomes
  import EngineCalls
  import Evidence
  import Selector
  import Verdicts

  /** Reopening after any run under the premise succeeds in restoring a state exactly under these conditions. */
  lemma ReopensExactlyWhen(env: Env, w: World, o: Options, fate: Fate)
    requires Reachable(env, w) && |w.e.store.disk.attempts| <= o.limits.store.maxAttempts
    ensures var m := w.e.store.medium;
            var so := StoreOptionsOf(o);
            OpenStore(m, so, fate).0.Restored?
            <==> StartFault(m, so).None? && FenceFree(m) && (if m.journal.None? then fate.creates else Covered(m) <= BaseOf(m))
  {
    hide Reachable, OpenStore, StartFault, FenceFree;
    ReachableInv(env, w);
    OpensExactlyWhen(w.e.store.medium, w.e.store.disk, w.e.store.limits, StoreOptionsOf(o), fate);
  }

  lemma AppendKeepsFence(m: Medium, e: Entry)
    ensures !FenceFree(m) ==> !FenceFree(WithEntry(m, e))
    ensures WithEntry(m, e).snapshot == m.snapshot
  {
    if m.journal.Some? {
      AppendedEntries(m, e);
      forall x | x in EntriesOf(m) ensures x in EntriesOf(WithEntry(m, e)) {}
    }
  }

  /** A fence that is committed lies above the watermark. */
  lemma FenceIsUncovered(s: StoreState, h: History, rec: Record)
    requires StoreInv(s, h) && rec.FencePut? && !Commit(s, rec).failed
    ensures !FenceFree(Commit(s, rec).medium)
  {
    hide Inv, After;
    var e := Entry(s.d.lastSeq + 1, rec);
    AppendedEntries(s.medium, e);
    PlacedCovers(s.medium);
    assert e in EntriesOf(WithEntry(s.medium, e));
  }

  // ---- what holds a bar ----

  /** What stands in the way: a fence above this watermark, or a rotation that was lost over this medium. */
  datatype Bar = FenceAbove(covered: nat) | RotationLostOver(medium: Medium)

  /** A snapshot of everything an older journal holds, which is not empty: what a lost rotation leaves. */
  ghost predicate Overtaken(m: Medium) {
    m.snapshot.Some? && m.journal.Some? && WellPlaced(m) && EntriesOf(m) != [] && Covered(m) == BaseOf(m) + |EntriesOf(m)|
  }

  /**
   * The bar holds. Since the watermark stood at `covered` with a fence above it, either it has not moved and
   * the fence is still there, or it has moved beyond; after a lost rotation the medium is left as it was.
   */
  ghost predicate Held(s: StoreState, bar: Bar) {
    match bar
    case FenceAbove(covered) =>
      && Covered(s.medium) <= s.d.lastSeq
      && (Covered(s.medium) > covered || (Covered(s.medium) == covered < s.d.lastSeq && !FenceFree(s.medium)))
    case RotationLostOver(medium) => s.failed && s.medium == medium && Overtaken(medium)
  }

  lemma CommitHolds(s: StoreState, rec: Record, bar: Bar)
    requires Held(s, bar)
    ensures Held(Commit(s, rec), bar) && Commit(s, rec).d.lastSeq >= s.d.lastSeq
  {
    hide FenceFree, WithEntry, Effect;
    AppendKeepsFence(s.medium, Entry(s.d.lastSeq + 1, rec));
  }

  lemma CheckpointHolds(s: StoreState, bar: Bar)
    requires Held(s, bar)
    ensures Held(Lineage.Checkpoint(s).0, bar)
  {
    hide FenceFree, Commit;
    if !s.failed && s.fate.snapshot.Kept? {
      var rotated := s.(medium := Medium(Some(s.d), Some(Journal(s.d.lastSeq, []))), sinceSnapshot := 0);
      CommitHolds(rotated, CheckpointMark(s.d.lastSeq, s.d.recordCount), bar);
    }
  }

  lemma WriteHolds(e: EngineState, rec: Record, bar: Bar)
    requires Held(e.store, bar)
    ensures Held(Write(e, rec).store, bar)
  {
    hide Commit, Held;
    CommitHolds(e.store, rec, bar);
  }

  lemma DecisionHolds(env: Env, e: EngineState, d: Decision, bar: Bar)
    requires Held(e.store, bar)
    ensures Held(CommitDecision(env, e, d).0.store, bar)
  {
    hide Write, Held;
    WriteHolds(e, DecisionCommit(d), bar);
  }

  lemma IndexHolds(env: Env, e: EngineState, d: Decision, key: Digest, bar: Bar)
    requires Held(e.store, bar)
    ensures Held(CommitIdempotency(env, e, d, key).store, bar)
  {
    hide Write, Held;
    WriteHolds(e, IdempotencyIndex(EntryFor(d, key)), bar);
  }

  lemma CompactionHolds(e: EngineState, bar: Bar)
    requires Held(e.store, bar)
    ensures Held(TakeCheckpoint(e).0.store, bar) && Held(MaybeCheckpoint(e).store, bar)
  {
    hide Lineage.Checkpoint, Held;
    CheckpointHolds(e.store, bar);
  }

  lemma SettlementHolds(env: Env, e: EngineState, d: Decision, key: Digest, bar: Bar)
    requires Held(e.store, bar)
    ensures Held(SettleDurable(env, e, d, key).0.store, bar) && Held(SettleUndurable(env, e, d).0.store, bar)
  {
    hide CommitDecision, CommitIdempotency, MaybeCheckpoint, Held;
    var (decided, written) := CommitDecision(env, e, d);
    DecisionHolds(env, e, d, bar);
    IndexHolds(env, decided, written, key, bar);
    CompactionHolds(CommitIdempotency(env, decided, written, key), bar);
  }

  lemma PutSettlementHolds(env: Env, e: EngineState, kind: PutKind, r: AttemptRecord, d: Decision, checkpoints: bool, bar: Bar)
    requires Held(e.store, bar)
    ensures Held(PutThenSettle(env, e, kind, r, d, checkpoints).0.store, bar)
  {
    hide Write, CommitDecision, MaybeCheckpoint, Held;
    var put := Write(e, AttemptPut(kind, r));
    WriteHolds(e, AttemptPut(kind, r), bar);
    DecisionHolds(env, put, d, bar);
    CompactionHolds(CommitDecision(env, put, d).0, bar);
  }

  lemma RevertHolds(env: Env, e: EngineState, was: AttemptRecord, r: AttemptRecord, d: Decision, key: Digest, bar: Bar)
    requires Held(e.store, bar)
    ensures Held(RevertAuthority(env, e, was, r, d, key).0.store, bar)
  {
    hide Write, CommitDecision, CommitIdempotency, Held;
    var put := Write(e, AttemptPut(PutKind.Rollback, r));
    WriteHolds(e, AttemptPut(PutKind.Rollback, r), bar);
    var fenced := Write(put, Protocol.Fence(e, RollbackRevoked, was));
    WriteHolds(put, Protocol.Fence(e, RollbackRevoked, was), bar);
    DecisionHolds(env, fenced, d, bar);
    IndexHolds(env, CommitDecision(env, fenced, d).0, CommitDecision(env, fenced, d).1, key, bar);
  }

  lemma ExecuteHolds(env: Env, e: EngineState, plan: Plan, bar: Bar)
    requires Held(e.store, bar)
    ensures Held(Execute(env, e, plan).0.store, bar)
  {
    hide Write, PutThenSettle, RevertAuthority, SettleUndurable, Held;
    match plan
    case Reject(_, _) =>
    case Repeat(_) =>
    case Report(d) => SettlementHolds(env, e, d, ZERO_DIGEST, bar);
    case Put(kind, r, d, checkpoints) => PutSettlementHolds(env, e, kind, r, d, checkpoints, bar);
    case CompleteEffect(v, d) =>
      WriteHolds(e, AttemptPut(Update, v), bar);
      PutSettlementHolds(env, Write(e, AttemptPut(Update, v)), Completion, v.(phase := Phase.Committed), d, true, bar);
    case Revert(was, r, d, key) => RevertHolds(env, e, was, r, d, key, bar);
  }

  lemma {:induction false} RevokeHolds(e: EngineState, kind: FenceKind, rest: seq<AttemptRecord>, bar: Bar)
    requires Held(e.store, bar)
    ensures Held(RevokeAll(e, kind, rest).store, bar)
    decreases |rest|
  {
    hide Write, Held;
    if rest != [] && !e.store.failed {
      if HoldsAuthority(rest[0].phase) {
        var put := Write(e, AttemptPut(Update, Revoked(rest[0])));
        WriteHolds(e, AttemptPut(Update, Revoked(rest[0])), bar);
        WriteHolds(put, Protocol.Fence(e, kind, rest[0]), bar);
        RevokeHolds(RevokeOne(e, kind, rest[0]), kind, rest[1..], bar);
      } else {
        RevokeHolds(e, kind, rest[1..], bar);
      }
    }
  }

  lemma InstallHolds(e: EngineState, rec: Record, kind: FenceKind, bar: Bar)
    requires Held(e.store, bar)
    ensures Held(Install(e, rec, kind).0.store, bar)
  {
    hide Write, RevokeAll, Held;
    WriteHolds(e, rec, bar);
    RevokeHolds(Write(e, rec), kind, Write(e, rec).store.d.attempts, bar);
  }

  lemma DeclineHolds(env: Env, e: EngineState, q: FailoverRequest, d: Decision, digest: Digest, bar: Bar)
    requires Held(e.store, bar)
    ensures Held(Decline(env, e, q, d, digest).0.store, bar)
  {
    hide Write, SettleDurable, SettleUndurable, CountOf, Held;
    var rec := AttemptPut(Create, DeclinedAttempt(e, q, d, digest));
    WriteHolds(e, rec, bar);
    SettlementHolds(env, Write(e, rec), d, q.key, bar);
    SettlementHolds(env, e, d.(reasons := d.reasons + [Because(Reasons.ATTEMPTS_EXHAUSTED)]), q.key, bar);
  }

  lemma GrantHolds(env: Env, e: EngineState, q: FailoverRequest, d: Decision, bar: Bar)
    requires Held(e.store, bar)
    ensures Held(GrantAuthority(env, e, q, d).0.store, bar)
  {
    hide Write, SettleDurable, GrantedAttempt, Held;
    var r := GrantedAttempt(e, q, d);
    var staged := Write(e, AttemptPut(Create, r));
    WriteHolds(e, AttemptPut(Create, r), bar);
    WriteHolds(staged, AttemptPut(Update, r.(phase := Authorized)), bar);
    SettlementHolds(env, Write(staged, AttemptPut(Update, r.(phase := Authorized))), d, q.key, bar);
  }

  lemma SelectionHolds(env: Env, e: EngineState, q: FailoverRequest, input: Selector.Input, v: Verdicts.FailureVerdict, bar: Bar)
    requires Held(e.store, bar) && v.Established?
    ensures Held(Grantable(env, e, q, input, v).0.store, bar)
  {
    hide Decline, SettleUndurable, GrantAuthority, Selector.Select, Selector.NamesInput, CountOf, Selector.Maximal, GrantDecision, Held;
    var o := Selector.Select(input);
    DeclineHolds(env, e, q, UnselectedDecision(env, e, q, o, v.digest), v.digest, bar);
    SettlementHolds(env, e, Conclude(RequestDecision(env, e, q).(candidates := o.assessments, evidenceDigest := v.digest, kind := Refuse),
                                     Eligibility, Outcome.Refused, [Reasons.ATTEMPTS_EXHAUSTED]), q.key, bar);
    if Selector.Acceptable(input, o) && o.status.Selected? {
      Selector.AcceptableIndex(input, o);
      GrantHolds(env, e, q, GrantDecision(env, e, q, o, o.assessments[o.selectedIndex.value], v), bar);
    }
  }

  lemma BoundHolds(env: Env, e: EngineState, q: FailoverRequest, link: LinkDefinition, bar: Bar)
    requires Held(e.store, bar)
    ensures Held(DecideBound(env, e, q, link).0.store, bar)
  {
    hide FailoverGate, SettleDurable, SettleUndurable, Decline, Grantable, SelectionInput, Verdicts.EvaluateFailure, Held;
    var gate := FailoverGate(env, e, q);
    if gate.Shut? {
      SettlementHolds(env, e, gate.decision, q.key, bar);
    } else {
      match Verdicts.EvaluateFailure(e.book, Viewpoint(e), q.subject, q.generation)
      case NotEstablished(outcome, reason, extra) =>
        DeclineHolds(env, e, q, UnestablishedDecision(env, e, q, outcome, reason, extra), ZERO_DIGEST, bar);
      case Established(p, i, n, digest) =>
        SelectionHolds(env, e, q, SelectionInput(e, q, link), Verdicts.Established(p, i, n, digest), bar);
    }
  }

  lemma FailoverHolds(env: Env, e: EngineState, q: FailoverRequest, bar: Bar)
    requires Held(e.store, bar)
    ensures Held(RequestFailover(env, e, q).0.store, bar)
  {
    hide DecideBound, RequestFault, FindEntry, ReplayDecision, Held;
    var t := e.(tick := e.tick + 1);
    var link := Find(t.store.d.topology.links, q.subject);
    if link.Some? { BoundHolds(env, t, q, link.value, bar); }
  }

  lemma CloseHolds(e: EngineState, bar: Bar)
    requires Held(e.store, bar)
    ensures Held(Close(e).0.store, bar)
  {
    hide Commit, Lineage.Checkpoint, Held;
    var mark := ShutdownMark(e.epoch, e.incarnation, e.store.d.lastSeq);
    CommitHolds(e.store, mark, bar);
    CheckpointHolds(Commit(e.store, mark), bar);
  }

  lemma CallHolds(env: Env, e: EngineState, call: Call, bar: Bar)
    requires Held(e.store, bar)
    ensures Held(Perform(env, e, call).0.store, bar)
  {
    hide Install, Execute, RequestFailover, Evidence.Observe, Evidence.ShapeFault, PlanApplication, PlanVerification, PlanRollback, PlanResolution,
      TakeCheckpoint, Close, Canonicalised, TopologyFault, Held;
    var t := e.(tick := e.tick + 1);
    match call
    case Observing(o) =>
    case SettingPolicy(p) => InstallHolds(e, PolicyCommit(p), PolicyChanged, bar);
    case SettingTopology(x) => InstallHolds(e, TopologyCommit(Canonicalised(x)), TopologyChanged, bar);
    case Requesting(q) => FailoverHolds(env, e, q, bar);
    case Applying(r) => ExecuteHolds(env, t, PlanApplication(t, r), bar);
    case Verifying(r) => ExecuteHolds(env, t, PlanVerification(t, r), bar);
    case RollingBack(q) => ExecuteHolds(env, t, PlanRollback(env, t, q), bar);
    case Resolving(q) => ExecuteHolds(env, t, PlanResolution(env, t, q), bar);
    case Checkpointing => CompactionHolds(e, bar);
    case Closing => CloseHolds(e, bar);
  }

  lemma {:induction false} FencingHolds(s: StoreState, rest: seq<AttemptRecord>, epoch: nat, incarnation: Incarnation, bar: Bar)
    requires Held(s, bar)
    ensures Held(FenceRestart(s, rest, epoch, incarnation), bar)
    decreases |rest|
  {
    hide Commit, Held, Cut;
    if rest != [] && !s.failed {
      if !Terminal(rest[0].phase) {
        var put := Commit(s, AttemptPut(Interruption, Cut(rest[0])));
        CommitHolds(s, AttemptPut(Interruption, Cut(rest[0])), bar);
        CommitHolds(put, FencePut(FenceRecord(PreRestartAuthority, rest[0].subject, rest[0].generation, rest[0].seqno, epoch, incarnation, 0, [])), bar);
      }
      FencingHolds(if Terminal(rest[0].phase) then s else InterruptOne(s, rest[0], epoch, incarnation), rest[1..], epoch, incarnation, bar);
    }
  }

  lemma BootHolds(o: Options, incarnation: Incarnation, s: StoreState, bar: Bar)
    requires Held(s, bar)
    ensures var r := BootStore(o, incarnation, s); Held(if r.Opened? then r.e.store else r.store, bar)
  {
    hide Commit, FenceRestart, Held;
    var booted := Commit(s, BootRecord(s.d, incarnation));
    CommitHolds(s, BootRecord(s.d, incarnation), bar);
    FencingHolds(booted, booted.d.attempts, s.d.epoch + 1, incarnation, bar);
  }

  lemma RestoredCovers(m: Medium, o: Lineage.StoreOptions, fate: Fate)
    requires OpenStore(m, o, fate).0.Restored?
    ensures Covered(m) <= OpenStore(m, o, fate).0.state.lastSeq && OpenStore(m, o, fate).1.snapshot == m.snapshot
  {
    hide Replay, StartFault;
    StartIs(m, o);
  }

  /** A reopening either leaves the medium alone or finds the fence covered. */
  lemma OpeningHolds(env: Env, w: World, o: Options, incarnation: Incarnation, fate: Fate, bar: Bar)
    requires WorldInv(env, w) && |w.e.store.disk.attempts| <= o.limits.store.maxAttempts && Held(w.e.store, bar) && bar.FenceAbove?
    ensures var r := OpenEngine(o, incarnation, w.e.store, fate); Held(if r.Opened? then r.e.store else r.store, bar)
  {
    hide OpenStore, BootStore, FenceFree, StoreInv, EngineInv, StartFault, OptionsFault;
    OpenOutcome(o, incarnation, w.e.store, fate);
    var so := StoreOptionsOf(o);
    var (restored, m) := OpenStore(w.e.store.medium, so, fate);
    if restored.Restored? {
      DescribedStore(w.e.store, w.h);
      OpensExactlyWhen(w.e.store.medium, w.e.store.disk, w.e.store.limits, so, fate);
      RestoredCovers(w.e.store.medium, so, fate);
      BootHolds(o, incarnation, Lineage.StoreState(restored.state, restored.state, m, false, 0, o.limits.store, fate), bar);
    }
  }

  lemma NextHolds(env: Env, w: World, ev: Event, bar: Bar)
    requires WorldInv(env, w) && Standing(env, w, ev) && Held(w.e.store, bar) && bar.FenceAbove?
    ensures Held(Next(env, w, ev).e.store, bar)
  {
    hide Perform, OpenEngine, WorldInv, NothingReinstated, OpenReinstatesNothing, EngineCalls.HasRoom;
    match ev
    case Calling(call, fate) => if w.up { CallHolds(env, Fated(w.e, fate), call, bar); }
    case Reopening(o, incarnation, fate) => OpeningHolds(env, w, o, incarnation, fate, bar);
  }

  lemma {:induction false} RunHolds(env: Env, w: World, events: seq<Event>, bar: Bar)
    requires WorldInv(env, w) && StandingRun(env, w, events) && Held(w.e.store, bar) && bar.FenceAbove?
    ensures Held(Run(env, w, events).e.store, bar)
    decreases |events|
  {
    hide WorldInv, Standing, Next, Held;
    if events != [] {
      NextKeeps(env, w, events[0]);
      NextHolds(env, w, events[0], bar);
      RunHolds(env, Next(env, w, events[0]), events[1..], bar);
    }
  }

  lemma HeldFrom(s: StoreState, h: History)
    requires StoreInv(s, h) && !s.failed && !FenceFree(s.medium)
    ensures Held(s, FenceAbove(Covered(s.medium)))
  {
    DescribedSize(s.medium, s.disk, s.limits);
    DescribedPlaces(s.medium, s.disk, s.limits);
  }

  lemma DescribedPlaces(m: Medium, d: Lineage.DurableState, limits: Limits)
    requires Describes(m, d, limits)
    ensures WellPlaced(m)
  {}

  lemma HeldBars(env: Env, z: World, o: Options, incarnation: Incarnation, fate: Fate, bar: Bar)
    requires WorldInv(env, z) && Held(z.e.store, bar) && bar == FenceAbove(Covered(z.e.store.medium)) && |z.e.store.disk.attempts| <= o.limits.store.maxAttempts
    requires OptionsFault(o).None? && StartFault(z.e.store.medium, StoreOptionsOf(o)).None?
    ensures OpenEngine(o, incarnation, z.e.store, fate) == NotOpened(z.e.store, Outcome.Corrupt, Reasons.CORRUPT_RECORD)
  {
    hide OpenStore, BootStore, FenceFree, StoreInv, EngineInv, StartFault, OptionsFault;
    OpenOutcome(o, incarnation, z.e.store, fate);
    DescribedStore(z.e.store, z.h);
    OpensExactlyWhen(z.e.store.medium, z.e.store.disk, z.e.store.limits, StoreOptionsOf(o), fate);
  }

  /**
   * A fence above the watermark bars every reopening for as long as the watermark stays where it is:
   * through any later calls, failures, crashes and attempts to reopen, until a checkpoint moves it,
   * because the fence's payload holds position 0 instead of its own.
   */
  lemma FenceBarsReopening(env: Env, w: World, later: seq<Event>, o: Options, incarnation: Incarnation, fate: Fate)
    requires WorldInv(env, w) && !w.e.store.failed && !FenceFree(w.e.store.medium) && StandingRun(env, w, later)
    requires var z := Run(env, w, later);
             && Covered(z.e.store.medium) == Covered(w.e.store.medium) && |z.e.store.disk.attempts| <= o.limits.store.maxAttempts
             && OptionsFault(o).None? && StartFault(z.e.store.medium, StoreOptionsOf(o)).None?
    ensures var z := Run(env, w, later);
            OpenEngine(o, incarnation, z.e.store, fate) == NotOpened(z.e.store, Outcome.Corrupt, Reasons.CORRUPT_RECORD)
  {
    hide StoreInv, EngineInv, Run, StandingRun, FenceFree, Held, OpenEngine, OptionsFault, StartFault;
    HeldFrom(w.e.store, w.h);
    RunHolds(env, w, later, FenceAbove(Covered(w.e.store.medium)));
    RunKeeps(env, w, later);
    HeldBars(env, Run(env, w, later), o, incarnation, fate, FenceAbove(Covered(w.e.store.medium)));
  }

  lemma SensibleRevert(env: Env, e: EngineState, h: History, was: AttemptRecord, r: AttemptRecord, d: Decision, key: Digest)
    requires Sensible(env, e, h, Revert(was, r, d, key))
    ensures !e.store.failed ==> Legal(e.store.d, h, AttemptPut(PutKind.Rollback, r), e.store.limits) && Settled(env, e.store.d, r)
  {}

  /** A rollback that is decided leaves its fence above the watermark. */
  lemma RevertFences(env: Env, e: EngineState, h: History, was: AttemptRecord, r: AttemptRecord, d: Decision, key: Digest)
    requires EngineInv(env, e, h) && Sensible(env, e, h, Revert(was, r, d, key)) && RevertAuthority(env, e, was, r, d, key).1.Decided?
    ensures Held(RevertAuthority(env, e, was, r, d, key).0.store, FenceAbove(Covered(e.store.medium)))
  {
    hide StoreInv, EngineInv, Sensible, FenceFree, Commit, Legal, Settled, Held, CommitDecision, CommitIdempotency;
    EngineInvMeans(env, e, h);
    SensibleRevert(env, e, h, was, r, d, key);
    var put := Write(e, AttemptPut(PutKind.Rollback, r));
    PutSteps(env, e, h, PutKind.Rollback, r);
    EngineInvMeans(env, put, h);
    var fence := Protocol.Fence(e, RollbackRevoked, was);
    var fenced := Write(put, fence);
    FenceIsUncovered(put.store, h, fence);
    FenceCalm(put, h, fence.fence);
    CalmInv(put, h, fenced);
    CommitCovers(e.store, AttemptPut(PutKind.Rollback, r));
    CommitCovers(put.store, fence);
    HeldFrom(fenced.store, h);
    var (decided, written) := CommitDecision(env, fenced, d);
    DecisionHolds(env, fenced, d, FenceAbove(Covered(e.store.medium)));
    IndexHolds(env, decided, written, key, FenceAbove(Covered(e.store.medium)));
  }

  lemma CommitCovers(s: StoreState, rec: Record)
    ensures Covered(Commit(s, rec).medium) == Covered(s.medium)
  {
    hide After;
  }

  /**
   * So a rollback that went through bars every reopening until some checkpoint moves the watermark: in
   * every reachable world, whatever is called, fails, crashes or tries to reopen in between.
   */
  lemma RollbackBarsReopening(env: Env, w: World, q: RollbackRequest, during: Fate, later: seq<Event>, o: Options, incarnation: Incarnation, fate: Fate)
    requires Reachable(env, w) && w.up && TakesRollback(env, Fated(w.e, during), q) && RequestRollback(env, Fated(w.e, during), q).1.Decided?
    requires var n := Next(env, w, Calling(RollingBack(q), during));
             && StandingRun(env, n, later)
             && var z := Run(env, n, later);
                && Covered(z.e.store.medium) == Covered(w.e.store.medium) && |z.e.store.disk.attempts| <= o.limits.store.maxAttempts
                && OptionsFault(o).None? && StartFault(z.e.store.medium, StoreOptionsOf(o)).None?
    ensures var z := Run(env, Next(env, w, Calling(RollingBack(q), during)), later);
            OpenEngine(o, incarnation, z.e.store, fate) == NotOpened(z.e.store, Outcome.Corrupt, Reasons.CORRUPT_RECORD)
  {
    hide Reachable, WorldInv, Run, StandingRun, Held, OpenEngine, OptionsFault, StartFault, TakesRollback, RequestRollback;
    ReachableInv(env, w);
    var ev := Calling(RollingBack(q), during);
    NextKeeps(env, w, ev);
    RollbackHolds(env, w, q, during);
    var n := Next(env, w, ev);
    RunHolds(env, n, later, FenceAbove(Covered(w.e.store.medium)));
    RunKeeps(env, n, later);
    HeldBars(env, Run(env, n, later), o, incarnation, fate, FenceAbove(Covered(w.e.store.medium)));
  }

  lemma RollbackHolds(env: Env, w: World, q: RollbackRequest, during: Fate)
    requires WorldInv(env, w) && w.up && TakesRollback(env, Fated(w.e, during), q) && RequestRollback(env, Fated(w.e, during), q).1.Decided?
    ensures Held(Next(env, w, Calling(RollingBack(q), during)).e.store, FenceAbove(Covered(w.e.store.medium)))
  {
    hide StoreInv, EngineInv, Held, TakesRollback, RevertAuthority, PlanRollback, Sensible;
    FateKeeps(env, w.e, w.h, during);
    var e := Fated(w.e, during);
    var t := e.(tick := e.tick + 1);
    TickKeeps(env, e, w.h);
    RollbackIsSensible(env, t, w.h, q);
    TakesWhileOpen(env, e, q);
    RollbackPlan(env, t, q);
    TakesLater(env, e, q);
    var plan := PlanRollback(env, t, q);
    RevertFences(env, t, w.h, plan.was, plan.attempt, plan.decision, plan.key);
  }

  lemma TakesLater(env: Env, e: EngineState, q: RollbackRequest)
    ensures TakesRollback(env, e, q) == TakesRollback(env, e.(tick := e.tick + 1), q)
  {
    ExpectsTicked(env, e, q);
  }

  lemma TakesWhileOpen(env: Env, e: EngineState, q: RollbackRequest)
    requires TakesRollback(env, e, q)
    ensures !e.closed
  {
    hide Lookup, FindEntry;
  }

  lemma DescribedStore(s: StoreState, h: History)
    requires StoreInv(s, h)
    ensures Describes(s.medium, s.disk, s.limits)
  {}

  // ---- a rotation that was lost ----

  /** A medium overtaken by its snapshot is never opened, and never touched. */
  lemma OvertakenBars(m: Medium, o: Lineage.StoreOptions, fate: Fate)
    requires Overtaken(m)
    ensures OpenStore(m, o, fate).0.Barred? && OpenStore(m, o, fate).1 == m
    ensures StartFault(m, o).None? ==> OpenStore(m, o, fate).0 == Barred(Outcome.Conflict, Reasons.SEQUENCE_REGRESSION)
  {
    hide StartFault;
    var d, j := m.snapshot.value, m.journal.value;
    CoveredFolds(d, d.lastSeq, j.base, j.entries, o.limits);
  }

  lemma NextIsLost(env: Env, w: World, ev: Event, m: Medium)
    requires Held(w.e.store, RotationLostOver(m))
    ensures Held(Next(env, w, ev).e.store, RotationLostOver(m))
  {
    hide Perform, OpenStore, BootStore, Overtaken, OptionsFault;
    match ev
    case Calling(call, fate) => if w.up { CallHolds(env, Fated(w.e, fate), call, RotationLostOver(m)); }
    case Reopening(o, incarnation, fate) => OvertakenBars(m, StoreOptionsOf(o), fate);
  }

  lemma {:induction false} RunIsLost(env: Env, w: World, events: seq<Event>, m: Medium)
    requires Held(w.e.store, RotationLostOver(m))
    ensures Held(Run(env, w, events).e.store, RotationLostOver(m))
    decreases |events|
  {
    hide Next, Held;
    if events != [] {
      NextIsLost(env, w, events[0], m);
      RunIsLost(env, Next(env, w, events[0]), events[1..], m);
    }
  }

  /** Once the store has failed over such a medium, nothing opens it again, whatever is called or tried in between. */
  lemma OvertakenForGood(env: Env, w: World, later: seq<Event>, o: Options, incarnation: Incarnation, fate: Fate)
    requires w.e.store.failed && Overtaken(w.e.store.medium)
    ensures var z := Run(env, w, later);
            && z.e.store.medium == w.e.store.medium && OpenEngine(o, incarnation, z.e.store, fate).NotOpened?
            && (OptionsFault(o).None? && StartFault(z.e.store.medium, StoreOptionsOf(o)).None? ==>
                  OpenEngine(o, incarnation, z.e.store, fate) == NotOpened(z.e.store, Outcome.Conflict, Reasons.SEQUENCE_REGRESSION))
  {
    hide Run, OpenStore, BootStore, Overtaken, OptionsFault, StartFault;
    RunIsLost(env, w, later, w.e.store.medium);
    OvertakenBars(w.e.store.medium, StoreOptionsOf(o), fate);
  }

  lemma LostRotationOvertakes(s: StoreState, h: History)
    requires StoreInv(s, h) && !s.failed && s.fate.snapshot.RotationLost? && EntriesOf(s.medium) != []
    ensures Lineage.Checkpoint(s).0.failed && Overtaken(Lineage.Checkpoint(s).0.medium)
  {
    hide Inv, DescribesFor;
  }

  /**
   * A checkpoint that dies between the snapshot and the rotation ends the lineage, as soon as the old
   * journal held a record: in every reachable world, whatever is called, fails, crashes or tries to
   * reopen later, under any options, nothing opens the medium again, because the snapshot's watermark is
   * above the journal's own base.
   */
  lemma LostRotationBarsReopening(env: Env, w: World, during: Fate, later: seq<Event>, o: Options, incarnation: Incarnation, fate: Fate)
    requires Reachable(env, w) && w.up && !w.e.closed && !w.e.store.failed
    requires during.snapshot.RotationLost? && EntriesOf(w.e.store.medium) != []
    ensures var n := Next(env, w, Calling(Checkpointing, during));
            var z := Run(env, n, later);
            && z.e.store.medium == n.e.store.medium && OpenEngine(o, incarnation, z.e.store, fate).NotOpened?
            && (OptionsFault(o).None? && StartFault(z.e.store.medium, StoreOptionsOf(o)).None? ==>
                  OpenEngine(o, incarnation, z.e.store, fate) == NotOpened(z.e.store, Outcome.Conflict, Reasons.SEQUENCE_REGRESSION))
  {
    hide Reachable, StoreInv, EngineInv, Run, OpenEngine, Overtaken, OptionsFault, StartFault;
    ReachableInv(env, w);
    FateKeeps(env, w.e, w.h, during);
    EngineHasStore(env, Fated(w.e, during), w.h);
    LostRotationOvertakes(Fated(w.e, during).store, w.h);
    OvertakenForGood(env, Next(env, w, Calling(Checkpointing, during)), later, o, incarnation, fate);
  }
}
