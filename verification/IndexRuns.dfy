/** The index over whole runs: a key that reached the medium is never granted again, whatever boots follow. */
module IndexRuns {
  import opened Basics
  import opened Records
  import opened Lineage
  import opened Invariant
  import opened Refinement
  import opened StoreSafety
  import opened Protocol
  import opened EngineSafety
  import opened Restart
  import opened Runs
  import opened Grants
  import opened Outcomes
  import opened Idempotency
  import EngineCalls
  import IndexEntries
  import Selector
  import Verdicts
  import Lifecycle

  /** Neither index lost anything, and they still agree. */
  predicate BothKept(s: StoreState, t: StoreState) {
    t.d.idempotency == s.d.idempotency && DiskKept(s, t)
  }

  lemma {:induction false} FencingKeepsIndex(s: StoreState, rest: seq<AttemptRecord>, epoch: nat, incarnation: Incarnation)
    ensures BothKept(s, FenceRestart(s, rest, epoch, incarnation))
    decreases |rest|
  {
    hide Commit, Cut;
    if rest != [] && !s.failed {
      if !Terminal(rest[0].phase) {
        var put := Commit(s, AttemptPut(Interruption, Cut(rest[0])));
        CommitKeepsIndex(s, AttemptPut(Interruption, Cut(rest[0])));
        CommitKeepsIndex(put, FencePut(FenceRecord(PreRestartAuthority, rest[0].subject, rest[0].generation, rest[0].seqno, epoch, incarnation, 0, [])));
      }
      FencingKeepsIndex(if Terminal(rest[0].phase) then s else InterruptOne(s, rest[0], epoch, incarnation), rest[1..], epoch, incarnation);
    }
  }

  lemma BootKeepsIndex(o: Options, incarnation: Incarnation, s: StoreState)
    ensures var r := BootStore(o, incarnation, s); BothKept(s, if r.Opened? then r.e.store else r.store)
  {
    hide Commit, FenceRestart;
    var booted := Commit(s, BootRecord(s.d, incarnation));
    CommitKeepsIndex(s, BootRecord(s.d, incarnation));
    FencingKeepsIndex(booted, booted.d.attempts, s.d.epoch + 1, incarnation);
  }

  lemma NearIndex(x: Lineage.DurableState, d: Lineage.DurableState, m: Medium, o: Lineage.StoreOptions)
    requires Near(x, d, m, o)
    ensures x.idempotency == d.idempotency
  {}

  /** A reopening finds the index the medium describes. */
  lemma OpeningKeepsIndex(env: Env, w: World, o: Options, incarnation: Incarnation, fate: Fate)
    requires WorldInv(env, w) && |w.e.store.disk.attempts| <= o.limits.store.maxAttempts
    requires o.limits.store.maxIdempotency == w.e.store.limits.maxIdempotency
    ensures var r := OpenEngine(o, incarnation, w.e.store, fate);
            w.e.store.disk.idempotency <= (if r.Opened? then r.e.store else r.store).disk.idempotency
  {
    hide OpenStore, BootStore, StoreInv, EngineInv, OptionsFault, Near;
    OpenOutcome(o, incarnation, w.e.store, fate);
    var so := StoreOptionsOf(o);
    var (restored, m) := OpenStore(w.e.store.medium, so, fate);
    if restored.Restored? {
      DescribedHere(w.e.store, w.h);
      RestoredIsNear(w.e.store.medium, w.e.store.disk, w.e.store.limits, so, fate);
      NearIndex(restored.state, w.e.store.disk, w.e.store.medium, so);
      BootKeepsIndex(o, incarnation, Lineage.StoreState(restored.state, restored.state, m, false, 0, o.limits.store, fate));
    }
  }

  lemma DescribedHere(s: StoreState, h: History)
    requires StoreInv(s, h)
    ensures Describes(s.medium, s.disk, s.limits)
  {}

  lemma SyncedHere(env: Env, w: World)
    requires WorldInv(env, w)
    ensures Synced(w.e.store) && (!w.e.store.failed ==> w.e.store.d == w.e.store.disk)
  {}

  /** The index has room, and a reopening keeps its bound. */
  predicate Roomy(w: World, ev: Event) {
    && |w.e.store.d.idempotency| < w.e.store.limits.maxIdempotency
    && (ev.Reopening? ==> ev.options.limits.store.maxIdempotency == w.e.store.limits.maxIdempotency)
  }

  lemma NextKeepsIndex(env: Env, w: World, ev: Event)
    requires WorldInv(env, w) && Standing(env, w, ev) && Roomy(w, ev)
    ensures w.e.store.disk.idempotency <= Next(env, w, ev).e.store.disk.idempotency
  {
    hide Perform, OpenEngine, WorldInv, NothingReinstated, OpenReinstatesNothing, EngineCalls.HasRoom;
    match ev
    case Calling(call, fate) =>
      SyncedHere(env, w);
      if w.up { CallKeepsIndex(env, Fated(w.e, fate), call); }
    case Reopening(o, incarnation, fate) => OpeningKeepsIndex(env, w, o, incarnation, fate);
  }

  /** The premise: before every event of the run the index has room under a bound that stays, so it evicts nothing. */
  ghost predicate RoomyRun(env: Env, w: World, events: seq<Event>)
    decreases |events|
  {
    events == [] || (Roomy(w, events[0]) && RoomyRun(env, Next(env, w, events[0]), events[1..]))
  }

  lemma {:induction false} RunKeepsIndex(env: Env, w: World, events: seq<Event>)
    requires WorldInv(env, w) && StandingRun(env, w, events) && RoomyRun(env, w, events)
    ensures w.e.store.disk.idempotency <= Run(env, w, events).e.store.disk.idempotency
    decreases |events|
  {
    hide WorldInv, Standing, Next;
    if events != [] {
      NextKeeps(env, w, events[0]);
      NextKeepsIndex(env, w, events[0]);
      RunKeepsIndex(env, Next(env, w, events[0]), events[1..]);
    }
  }

  lemma GrantNeedsStore(env: Env, e: EngineState, q: FailoverRequest)
    requires GrantsAnew(RequestFailover(env, e, q).1)
    ensures !e.store.failed && FindEntry(e.store.d.idempotency, q.key).None?
  {
    hide RequestFailover, GrantAuthority, GrantDecision, Selector.Select, SelectionInput, Verdicts.EvaluateFailure, FindEntry;
    GrantKeyIsNew(env, e, q);
    GrantIsAuthority(env, e, q);
    var t := e.(tick := e.tick + 1);
    var v := Verdicts.EvaluateFailure(t.book, Viewpoint(t), q.subject, q.generation);
    var o := Selector.Select(SelectionInput(t, q, Find(t.store.d.topology.links, q.subject).value));
    GrantedWhileUp(env, t, q, GrantDecision(env, t, q, o, o.assessments[o.selectedIndex.value], v));
  }

  /** A key whose entry the medium describes is not granted again in any continuation of the run, whatever crashes and reopens in it. */
  lemma IndexedForGood(env: Env, w: World, later: seq<Event>, q: FailoverRequest)
    requires WorldInv(env, w) && StandingRun(env, w, later) && RoomyRun(env, w, later)
    requires FindEntry(w.e.store.disk.idempotency, q.key).Some?
    ensures !GrantsAnew(RequestFailover(env, Run(env, w, later).e, q).1)
  {
    hide WorldInv, Run, StandingRun, RoomyRun, FindEntry, RequestFailover, GrantsAnew, Lifecycle.Evolves;
    RunKeeps(env, w, later);
    RunKeepsIndex(env, w, later);
    var z := Run(env, w, later);
    FindInLonger(w.e.store.disk.idempotency, z.e.store.disk.idempotency, q.key);
    SyncedHere(env, z);
    if GrantsAnew(RequestFailover(env, z.e, q).1) { GrantNeedsStore(env, z.e, q); }
  }

  /**
   * One grant per key, across boots. In any reachable world, a grant under a non-zero key whose call
   * leaves the store working is the last one under that key: no request of any later event of the run,
   * in this boot or after any crash and reopening, is granted under it while the index evicts nothing.
   */
  lemma GrantedOnceForAll(env: Env, w: World, q: FailoverRequest, during: Fate, later: seq<Event>, p: FailoverRequest)
    requires Reachable(env, w) && w.up && q.key != ZERO_DIGEST && p.key == q.key
    requires Standing(env, w, Calling(Requesting(q), during)) && |w.e.store.d.idempotency| < w.e.store.limits.maxIdempotency
    requires var reply := RequestFailover(env, Fated(w.e, during), q).1; GrantsAnew(reply) && EntryTaken(env, reply, q.key)
    requires var n := Next(env, w, Calling(Requesting(q), during));
             && !n.e.storeFailed && !n.e.store.failed
             && StandingRun(env, n, later) && RoomyRun(env, n, later)
    ensures !GrantsAnew(RequestFailover(env, Run(env, Next(env, w, Calling(Requesting(q), during)), later).e, p).1)
  {
    hide Reachable, WorldInv, Run, StandingRun, RoomyRun, FindEntry, RequestFailover, GrantsAnew, Lifecycle.Evolves, Standing, EntryTaken;
    ReachableInv(env, w);
    var e := Fated(w.e, during);
    FailoverKeepsIndex(env, e, q);
    PerformRequest(env, e, q);
    NextKeeps(env, w, Calling(Requesting(q), during));
    var n := Next(env, w, Calling(Requesting(q), during));
    SyncedHere(env, n);
    IndexedForGood(env, n, later, p);
  }

  /** Under the engine's own bound on entries, and well-typed values, every grant's entry is taken. */
  lemma GrantedOnceForAllUnderTheBound(env: Env, w: World, q: FailoverRequest, during: Fate, later: seq<Event>, p: FailoverRequest)
    requires Reachable(env, w) && w.up && q.key != ZERO_DIGEST && p.key == q.key
    requires Standing(env, w, Calling(Requesting(q), during)) && |w.e.store.d.idempotency| < w.e.store.limits.maxIdempotency
    requires IndexEntries.RealIndex(env) && IndexEntries.NamedEngine(w.e) && IndexEntries.NamedRequest(q)
    requires GrantsAnew(RequestFailover(env, Fated(w.e, during), q).1)
    requires var n := Next(env, w, Calling(Requesting(q), during));
             && !n.e.storeFailed && !n.e.store.failed
             && StandingRun(env, n, later) && RoomyRun(env, n, later)
    ensures !GrantsAnew(RequestFailover(env, Run(env, Next(env, w, Calling(Requesting(q), during)), later).e, p).1)
  {
    hide Reachable, Run, StandingRun, RoomyRun, RequestFailover, GrantsAnew, Standing, Next, EntryTaken, IndexEntries.RealIndex, IndexEntries.NamedEngine,
      IndexEntries.NamedRequest;
    IndexEntries.FatedIsNamed(w.e, during);
    IndexEntries.GrantIsTaken(env, Fated(w.e, during), q);
    GrantedOnceForAll(env, w, q, during, later, p);
  }
}
