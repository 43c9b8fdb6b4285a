/** What the index never got can be granted again: a crash between a grant and its index entry, and the run that follows. */
module LostIndex {
  import opened Basics
  import opened ByteBits
  import opened Records
  import opened Lineage
  import opened Table
  import opened Invariant
  import opened Refinement
  import opened StoreSafety
  import opened Protocol
  import opened EngineCalls
  import opened Restart
  import opened Runs
  import opened Grants
  import opened Outcomes
  import opened Idempotency
  import opened IndexRuns
  import opened Scenario
  import opened TypedCalls
  import opened TypedRuns
  import EngineSafety
  import Eviction
  import Evidence
  import Premise
  import RecordCodec
  import Selector
  import Snapshot
  import TypedStore
  import Verdicts

  // ---- runs with room in the index ----

  /** A run that keeps the standing premise, never finds the index full, and has all arguments in their ranges. */
  ghost predicate Follows(env: Env, w: World, events: seq<Event>, z: World) {
    StandingRun(env, w, events) && RoomyRun(env, w, events) && TypedRun(env, w, events) && Run(env, w, events) == z
  }

  lemma {:induction false} FollowsOn(env: Env, w: World, events: seq<Event>, z: World, ev: Event)
    requires Follows(env, w, events, z) && Standing(env, z, ev) && Roomy(z, ev)
    requires TypedArguments(ev) && z.e.tick <= 99
    ensures Follows(env, w, events + [ev], Next(env, z, ev))
    decreases |events|
  {
    hide Standing, Next, TypedCall, TypedStore.TypedOptions;
    if events == [] {
      assert events + [ev] == [ev] && [ev][1..] == [];
      NothingFollows(env, Next(env, z, ev));
    } else {
      var n := Next(env, w, events[0]);
      FollowsOn(env, n, events[1..], z, ev);
      assert (events + [ev])[1..] == events[1..] + [ev];
    }
  }

  lemma NothingFollows(env: Env, w: World)
    ensures Follows(env, w, [], w)
  {}

  lemma FollowsReaches(env: Env, o: Options, events: seq<Event>, z: World)
    requires Follows(env, Virgin(o), events, z)
    ensures TypedReachable(env, z)
  {
    hide StandingRun, TypedRun, RoomyRun, Run, Virgin;
  }

  /** Both reports on an empty book. */
  lemma ReportsFollow(env: Env, v: World, events: seq<Event>, w: World, table: nat, n: nat) returns (more: seq<Event>, z: World)
    requires Follows(env, v, events, w) && Well(w, table) && Within(w, n) && n <= 90 && w.e.book == Evidence.EMPTY_BOOK && w.e.store.d.idempotency == []
    ensures Follows(env, v, more, z) && Well(z, table) && Within(z, n + 2) && z.e.store.d == w.e.store.d && Evident(z.e, 1, 1)
    ensures z.e.epoch == w.e.epoch && z.e.incarnation == w.e.incarnation
  {
    hide Next, Standing, Follows, TopologyFault, Pairs, Evident, TypedCall;
    Premise.ReportsAre(1, 1);
    ReportsAreTyped(1, 1);
    var down, up := Observing(Evidence.OfSubject(DownReport(1, 1))), Observing(Evidence.OfCandidate(UpReport(1)));
    var m;
    m, z := AreHeard(env, w, table, 1, 1);
    Premise.NothingAsked(env, w, down);
    FollowsOn(env, v, events, w, Calling(down, WILLING));
    Premise.NothingAsked(env, m, up);
    FollowsOn(env, v, events + [Calling(down, WILLING)], m, Calling(up, WILLING));
    more := events + [Calling(down, WILLING)] + [Calling(up, WILLING)];
  }

  /** An engine with both reports, an empty table and a compacted medium. */
  lemma Prepared(env: Env) returns (z: World, d: Lineage.DurableState)
    ensures TypedReachable(env, z) && Well(z, 9) && Within(z, 4) && z.e.store.d.topology == Defining(1, 1) && Evident(z.e, 1, 1) && z.e.epoch == 1
    ensures z.e.store.d.attempts == [] && z.e.store.d.idempotency == [] && Compacted(z.e.store.medium, d)
    ensures TopologyFault(d.topology).None? && d.fabric == FABRIC && d.policy == POLICY && d.lastSeq <= 99
  {
    hide Next, Standing, Follows, TopologyFault, Pairs, Defining, Evident, Virgin, Launch, Compacted, TypedReachable, TypedArguments;
    LaunchIsTyped(9, 1);
    MarkCallIsTyped();
    var v := Virgin(Small(9));
    var a := Opens(env, 9);
    NothingFollows(env, v);
    VirginHasRoom(9);
    VirginClock(9);
    FollowsOn(env, v, [], v, Launch(9, 1));
    var s, b := ReportsFollow(env, v, [] + [Launch(9, 1)], a, 9, 1);
    Premise.NothingAsked(env, b, Checkpointing);
    FollowsOn(env, v, s, b, Calling(Checkpointing, WILLING));
    IsCompacted(env, b, 9, 3);
    z, d := Next(env, b, Calling(Checkpointing, WILLING)), b.e.store.d;
    Premise.EvidentLater(b.e, z.e, 1, 1);
    FollowsReaches(env, Small(9), s + [Calling(Checkpointing, WILLING)], z);
  }

  lemma VirginClock(table: nat)
    ensures Virgin(Small(table)).e.tick == 0
  {
    hide Pairs;
  }

  lemma MarkCallIsTyped()
    ensures TypedArguments(Calling(Checkpointing, WILLING))
  {}

  lemma VirginHasRoom(table: nat)
    ensures Roomy(Virgin(Small(table)), Launch(table, 1))
  {
    hide Pairs;
  }

  // ---- the grant whose entry is lost ----

  /** The process that granted is stuck with a failed store; the medium holds the attempt and can be reopened. */
  ghost predicate Stranded(f: World, d: Lineage.DurableState, y: AttemptRecord) {
    && f.up && f.e.store.failed && f.e.storeFailed && f.e.store.limits == Small(9).limits.store
    && f.e.store.disk.attempts == [y] && OfPair(y, LINK, 1) && y.seqno == 1 && y.phase.Authorized? && !y.revalidated
    && f.e.store.disk.idempotency == [] && f.e.store.d.idempotency == []
    && f.e.store.disk.fabric == FABRIC && f.e.store.disk.policy == POLICY && f.e.store.disk.topology == Defining(1, 1)
    && f.e.store.disk.bootCount == f.e.store.disk.epochAdvances == f.e.store.disk.epoch == 1 && f.e.store.disk.lastSeq <= 99
    && Openable(f.e.store.medium) && f.e.store.medium.snapshot == Some(d)
  }

  lemma NineTakesOne(x: AttemptRecord, y: AttemptRecord)
    requires SameKey(x, y)
    ensures Granted([], x, y, 9) == [y]
  {
    Eviction.NineKept(x, y);
  }

  /** The request under its key, to a process whose medium will give out. */
  lemma AskedShort(env: Env, z: World, key: Digest)
    requires Keyed(env, z, key) && z.e.tick <= 99
    ensures Askable(env, Fated(z.e, SHORT).(tick := z.e.tick + 1), AskUnder(LINK, 1, key))
  {
    hide RealEnv, TypedEngine, TypedRequest, AskUnder;
    FatedTyped(z.e, SHORT);
    TickTyped(Fated(z.e, SHORT));
    AskIsTyped(LINK, 1, key);
  }

  /** The reports are in and nothing was asked: the request meets every condition. */
  lemma ShortIsGrantable(env: Env, z: World)
    requires Well(z, 9) && Within(z, 4) && z.e.store.d.topology == Defining(1, 1) && Evident(z.e, 1, 1)
    requires z.e.store.d.attempts == [] && z.e.store.d.idempotency == []
    ensures GrantConditions(env, Fated(z.e, SHORT).(tick := z.e.tick + 1), AskUnder(LINK, 1, Eviction.Key(1)))
    ensures CountOf(z.e.store.d.attempts, LINK, 1) == 0
  {
    hide GrantConditions, CountOf, Free, TopologyFault, FindEntry, Evident, Eviction.Key, Defining;
    var t := Fated(z.e, SHORT).(tick := z.e.tick + 1);
    Premise.EvidentLater(z.e, t, 1, 1);
    Premise.NobodyIsFree(t.store.d, LINK, 1);
    Premise.EmptyCounts(LINK, 1);
    Eviction.EmptyIndex(t.store.d.idempotency, Eviction.Key(1));
    AskIsGrantable(env, t, 1, 1, Eviction.Key(1));
  }

  lemma GrantIsStranded(env: Env, z: World, d: Lineage.DurableState) returns (f: World, y: AttemptRecord)
    requires Keyed(env, z, Eviction.Key(1))
    requires Well(z, 9) && Within(z, 4) && z.e.store.d.topology == Defining(1, 1) && Evident(z.e, 1, 1) && z.e.epoch == 1
    requires z.e.store.d.attempts == [] && z.e.store.d.idempotency == [] && Compacted(z.e.store.medium, d)
    ensures f == Next(env, z, Calling(Requesting(AskUnder(LINK, 1, Eviction.Key(1))), SHORT)) && Stranded(f, d, y)
    ensures GrantsAnew(RequestFailover(env, Fated(z.e, SHORT), AskUnder(LINK, 1, Eviction.Key(1))).1)
  {
    hide RequestFailover, GrantConditions, CountOf, Granted, TopologyFault, GrantAuthority, GrantDecision, Issued, GrantedAttempt, GrantsAnew, Evident,
      Openable, Eviction.Key, Defining, Pairs, Keyed, Askable, GrantIndexable;
    Eviction.KeysDiffer();
    var e := Fated(z.e, SHORT);
    var t := e.(tick := e.tick + 1);
    var q := AskUnder(LINK, 1, Eviction.Key(1));
    CompactedIsOpenable(z.e.store.medium, d);
    AskedShort(env, z, Eviction.Key(1));
    ShortIsGrantable(env, z);
    var o, chosen, v := IsDecided(env, e, q);
    var g := GrantDecision(env, t, q, o, chosen, v);
    var x;
    x, y := GrantUnindexed(env, t, q, g);
    BothAreIssued(env, t, q, o, chosen, v, x, y);
    IssuedKeys(x, y, t, 1, 1);
    NineTakesOne(x, y);
    f := Next(env, z, Calling(Requesting(q), SHORT));
    assert Perform(env, e, Requesting(q)) == RequestFailover(env, e, q) by { PerformRequest(env, e, q); }
  }

  lemma IssuedKeys(x: AttemptRecord, y: AttemptRecord, e: EngineState, generation: nat, seqno: nat)
    requires Issued(x, e, generation, seqno) && Issued(y, e, generation, seqno)
    ensures SameKey(x, y) && OfPair(y, LINK, generation) && y.seqno == seqno && !y.revalidated
  {}

  // ---- the next process ----

  lemma RestoredIs(f: World, h: History, d: Lineage.DurableState, y: AttemptRecord) returns (x: Lineage.DurableState, r: AttemptRecord)
    requires StoreInv(f.e.store, h) && Stranded(f, d, y)
    requires TopologyFault(d.topology).None? && d.fabric == FABRIC && d.policy == POLICY
    ensures OpenStore(f.e.store.medium, StoreOptionsOf(Small(9)), WILLING).0 == Restored(x)
    ensures x.attempts == [r] && Bare(r) == Bare(y) && x.idempotency == [] && x.lastSeq == f.e.store.disk.lastSeq
    ensures x.fabric == FABRIC && x.policy == POLICY && x.topology == Defining(1, 1) && x.bootCount == x.epochAdvances == x.epoch == 1
  {
    hide TopologyFault, OpenStore, Describes, Inv, Defining, Bare, Pairs;
    var m, so := f.e.store.medium, StoreOptionsOf(Small(9));
    assert StartFault(m, so).None?;
    OpensExactlyWhen(m, f.e.store.disk, f.e.store.limits, so, WILLING);
    RestoredIsNear(m, f.e.store.disk, f.e.store.limits, so, WILLING);
    x := OpenStore(m, so, WILLING).0.state;
    r := x.attempts[0];
  }

  /** Booting over the restored state interrupts its one attempt. */
  lemma BootCuts(x: Lineage.DurableState, r: AttemptRecord, m: Medium) returns (t: StoreState, u: AttemptRecord)
    requires x.attempts == [r] && !Terminal(r.phase) && x.epoch == x.bootCount == x.epochAdvances == 1 && x.lastSeq <= 99
    ensures var s := Lineage.StoreState(x, x, m, false, 0, Small(9).limits.store, WILLING);
            && BootStore(Small(9), Boot16(2), s) == Opened(EngineState(Small(9), t, Boot16(2), 2, 0, [], Evidence.EMPTY_BOOK, false, false), 1)
            && !t.failed && t.disk == t.d && t.limits == s.limits && t.d.lastSeq == x.lastSeq + 3 && t.d.attempts == [u]
            && t.d == x.(epoch := 2, coordinator := Boot16(2), bootCount := 2, epochAdvances := 2, attempts := t.d.attempts, fences := t.d.fences,
                         lastSeq := t.d.lastSeq, recordCount := t.d.recordCount)
    ensures SameKey(u, r) && SamePair(u, r) && u.phase.Interrupted? && u.revalidated == r.revalidated
  {
    hide FenceRestart, Cut, Upsert, Boot16, WithEntry;
    var s := Lineage.StoreState(x, x, m, false, 0, Small(9).limits.store, WILLING);
    CommitWorks(s, BootRecord(x, Boot16(2)), 2);
    var booted := Commit(s, BootRecord(x, Boot16(2)));
    assert [] + [r] + [] == [r] && booted.d.attempts == [r] && [r][1..] == [];
    OneIsCut(booted, [], r, [], 2, Boot16(2));
    t := FenceRestart(booted, [r], 2, Boot16(2));
    u := Stored(Interruption, Cut(r), booted.d.lastSeq + 1);
    CutIs(r);
    Premise.UpsertAt([r], 0, u);
    assert [r][0 := u] == [u];
    assert InFlight([r]) == 1;
  }

  lemma OpeningStands(env: Env, f: World, x: Lineage.DurableState)
    requires OpenStore(f.e.store.medium, StoreOptionsOf(Small(9)), WILLING).0 == Restored(x) && x.topology == f.e.store.disk.topology
    requires |f.e.store.disk.attempts| <= 9
    ensures Standing(env, f, Launch(9, 2))
  {
    hide OpenStore, Pairs, Defining, Boot16;
  }

  lemma OpeningIs(env: Env, f: World, x: Lineage.DurableState, e: EngineState)
    requires OptionsFault(Small(9)).None?
    requires var (restored, m) := OpenStore(f.e.store.medium, StoreOptionsOf(Small(9)), WILLING);
             && restored == Restored(x)
             && BootStore(Small(9), Boot16(2), Lineage.StoreState(x, x, m, false, 0, Small(9).limits.store, WILLING)) == Opened(e, 1)
    ensures Next(env, f, Launch(9, 2)) == World(true, e, Grow(f.h, e.store.disk))
  {
    hide OpenStore, BootStore, OptionsFault, Grow, Defining, Boot16;
  }

  /** The next process interrupts the attempt. */
  lemma ReopensAfter(env: Env, f: World, d: Lineage.DurableState, y: AttemptRecord) returns (b: World, u: AttemptRecord)
    requires WorldInv(env, f) && Stranded(f, d, y)
    requires TopologyFault(d.topology).None? && d.fabric == FABRIC && d.policy == POLICY
    ensures b == Next(env, f, Launch(9, 2)) && Standing(env, f, Launch(9, 2))
    ensures Well(b, 9) && Within(b, 20) && b.e.store.d.topology == Defining(1, 1) && b.e.book == Evidence.EMPTY_BOOK
    ensures b.e.epoch == 2 && b.e.store.d.idempotency == []
    ensures b.e.store.d.attempts == [u] && OfPair(u, LINK, 1) && u.seqno == 1 && u.phase.Interrupted? && !u.revalidated
  {
    hide TopologyFault, OpenStore, BootStore, StoreInv, EngineSafety.EngineInv, Defining, Bare, Boot16, OptionsFault, Pairs, Standing, Next, Openable, Grow;
    var x, r := RestoredIs(f, f.h, d, y);
    BareParts(r, y);
    OpeningStands(env, f, x);
    SmallIsValid(9);
    DefiningIsSound(1, 1);
    var t;
    t, u := BootCuts(x, r, OpenStore(f.e.store.medium, StoreOptionsOf(Small(9)), WILLING).1);
    OpeningIs(env, f, x, EngineState(Small(9), t, Boot16(2), 2, 0, [], Evidence.EMPTY_BOOK, false, false));
    b := Next(env, f, Launch(9, 2));
  }

  // ---- the second grant ----

  lemma FollowsTyped(env: Env, v: World, events: seq<Event>, z: World)
    requires RealEnv(env) && TypedWorld(v) && Follows(env, v, events, z)
    ensures TypedWorld(z)
  {
    hide RealEnv, TypedWorld, StandingRun, RoomyRun, TypedRun, Run;
    RunTyped(env, v, events);
  }

  lemma KeyedIs(env: Env, z: World)
    requires RealEnv(env) && TypedWorld(z) && z.up
    ensures Keyed(env, z, Eviction.Key(1))
  {
    hide RealEnv, TypedEngine;
  }

  /** The attempt is found not to have been applied, the link is still down, and the same key asks again. */
  lemma AsksAgain(env: Env, v: World, events: seq<Event>, b: World, u: AttemptRecord) returns (more: seq<Event>, z: World)
    requires RealEnv(env) && TypedWorld(v)
    requires Follows(env, v, events, b) && Well(b, 9) && Within(b, 20) && b.e.store.d.topology == Defining(1, 1) && b.e.book == Evidence.EMPTY_BOOK
    requires b.e.store.d.idempotency == []
    requires b.e.store.d.attempts == [u] && OfPair(u, LINK, 1) && u.seqno == 1 && u.phase.Interrupted? && !u.revalidated
    ensures Follows(env, v, more, z) && z.up
    ensures GrantsAnew(RequestFailover(env, Fated(z.e, WILLING), AskUnder(LINK, 1, Eviction.Key(1))).1)
  {
    hide Next, Standing, Follows, TopologyFault, Pairs, Defining, Evident, CountOf, Upsert, RetainAttempts, Free, Lookup, FindEntry, Eviction.Key, Granted,
      RequestFailover, GrantsAnew, RealEnv, TypedWorld, Keyed;
    var verdict := Resolving(RevalidationRequest(LINK, 1, 1, NotApplied, Boot16(9), b.e.epoch));
    assert Lookup(b.e.store.d.attempts, u.subject, u.seqno) == Some(u) by { Premise.OneFound(u); }
    var y := IsCleared(env, b, 9, 20, u);
    var c := Next(env, b, Calling(verdict, WILLING));
    Premise.NothingAsked(env, b, verdict);
    FollowsOn(env, v, events, b, Calling(verdict, WILLING));
    Eviction.NineKept(u, y);
    more, z := ReportsFollow(env, v, events + [Calling(verdict, WILLING)], c, 9, 21);
    Premise.NobodyIsFree(z.e.store.d, LINK, 1);
    OneCounts(y);
    Eviction.EmptyIndex(z.e.store.d.idempotency, Eviction.Key(1));
    FollowsTyped(env, v, more, z);
    KeyedIs(env, z);
    var first, second := IsGranted(env, z, 9, 23, 1, 1, Eviction.Key(1));
  }

  lemma OneCounts(y: AttemptRecord)
    ensures CountOf([y], LINK, 1) <= 1
  {}

  /**
   * A grant whose index entry is lost does not bind its key. From a reachable world a request is granted
   * under a key while the medium takes its three records and no more; the process dies, the next one
   * finds that the attempt was not applied, and the same key is granted again. Every event keeps the
   * standing premise, has its arguments in their ranges, and never finds the index full; the index has its
   * own bound, and the snapshot that the next process starts from is one its decoder accepts. Only the
   * store of the first grant did not stay working.
   */
  lemma LostEntryIsGrantedAgain(env: Env) returns (w: World, later: seq<Event>, z: World)
    requires RealEnv(env)
    ensures var q := AskUnder(LINK, 1, Eviction.Key(1));
            var n := Next(env, w, Calling(Requesting(q), SHORT));
            && q.key != ZERO_DIGEST && TypedReachable(env, w) && w.up && TypedEvent(w, Calling(Requesting(q), SHORT)) && Standing(env, w, Calling(Requesting(q), SHORT))
            && GrantsAnew(RequestFailover(env, Fated(w.e, SHORT), q).1)
            && n.e.storeFailed && n.e.store.medium.snapshot.Some? && Snapshot.StateOk(n.e.store.medium.snapshot.value)
            && TypedRun(env, n, later) && StandingRun(env, n, later) && RoomyRun(env, n, later) && z == Run(env, n, later) && z.up
            && GrantsAnew(RequestFailover(env, Fated(z.e, WILLING), q).1)
  {
    hide Next, Standing, TopologyFault, Pairs, Defining, Evident, Eviction.Key, RequestFailover, GrantsAnew, Reachable, WorldInv, StandingRun, RoomyRun, Run,
      Compacted, AskUnder, Launch, RealEnv, TypedReachable, TypedWorld, TypedRun, TypedEvent, TypedArguments, Keyed, Snapshot.StateOk;
    var d;
    w, d := Prepared(env);
    ReachableTyped(env, w);
    ReachableInv(env, w);
    KeyedIs(env, w);
    var q := AskUnder(LINK, 1, Eviction.Key(1));
    Eviction.KeysDiffer();
    Eviction.AskedUnder(LINK, 1, Eviction.Key(1));
    RoomUnder(env, w, Eviction.Key(1));
    var n, y := GrantIsStranded(env, w, d);
    NextKeeps(env, w, Calling(Requesting(q), SHORT));
    RequestEvent(w);
    NextTyped(env, w, Calling(Requesting(q), SHORT));
    Premise.TakenIsOk(n, d);
    LaunchIsTyped(9, 2);
    var b, u := ReopensAfter(env, n, d, y);
    NothingFollows(env, n);
    StrandedHasRoom(n, d, y);
    FollowsOn(env, n, [], n, Launch(9, 2));
    later, z := AsksAgain(env, n, [] + [Launch(9, 2)], b, u);
  }

  lemma StrandedHasRoom(n: World, d: Lineage.DurableState, y: AttemptRecord)
    requires Stranded(n, d, y)
    ensures Roomy(n, Launch(9, 2))
  {
    hide Openable, Defining;
  }

  lemma RequestEvent(w: World)
    requires w.e.tick <= 99
    ensures TypedEvent(w, Calling(Requesting(AskUnder(LINK, 1, Eviction.Key(1))), SHORT))
  {
    hide AskUnder;
    AskIsTyped(LINK, 1, Eviction.Key(1));
  }

  lemma RoomUnder(env: Env, w: World, key: Digest)
    requires |w.e.store.d.attempts| < w.e.store.limits.maxAttempts
    ensures Standing(env, w, Calling(Requesting(AskUnder(LINK, 1, key)), SHORT))
  {
    hide CountOf, FailoverGate, FindEntry, Defines;
  }
}
