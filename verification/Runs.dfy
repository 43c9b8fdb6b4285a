/** Whole runs: any calls, failures, crashes and reopens, from an empty medium on. */
module Runs {
  import opened Basics
  import opened Records
  import opened Lineage
  import opened Table
  import opened Invariant
  import opened Lifecycle
  import opened Refinement
  import opened StoreSafety
  import opened Protocol
  import opened EngineSafety
  import opened EngineCalls
  import opened Restart
  import Evidence
  import Directives
  import Gate

  /**
   * A call with what the medium will do to its writes, or a reopening by a new process. A crash
   * inside a call is a call whose writes fail from some point on, followed by a reopening.
   */
  datatype Event =
    | Calling(call: Call, fate: Fate)
    | Reopening(options: Options, incarnation: Incarnation, fate: Fate)

  /** The process, if one is up, and the store as it or its predecessor left it. */
  datatype World = World(up: bool, e: EngineState, h: History)

  function Fated(e: EngineState, fate: Fate): EngineState {
    e.(store := e.store.(fate := fate))
  }

  ghost function Next(env: Env, w: World, ev: Event): World {
    match ev
    case Calling(call, fate) =>
      if !w.up then w
      else
        var f := Perform(env, Fated(w.e, fate), call).0;
        World(true, f, Grow(w.h, f.store.disk))
    case Reopening(o, incarnation, fate) =>
      match OpenEngine(o, incarnation, w.e.store, fate)
      case Opened(e, _) => World(true, e, Grow(w.h, e.store.disk))
      case NotOpened(s, _, _) => World(false, w.e.(store := s), Grow(w.h, s.disk))
  }

  /**
   * The standing premise, event by event: no definition reinstates a link generation that was left, the
   * attempt table takes what a failover request adds to it, and whoever reopens leaves room for the table.
   */
  ghost predicate Standing(env: Env, w: World, ev: Event) {
    match ev
    case Calling(call, _) =>
      && (call.SettingTopology? ==> NothingReinstated(w.h, w.e.store.disk.topology, Canonicalised(call.topology)))
      && (call.Requesting? ==> HasRoom(env, w.e, call.request))
    case Reopening(o, _, fate) =>
      |w.e.store.disk.attempts| <= o.limits.store.maxAttempts && OpenReinstatesNothing(w.h, w.e.store, o, fate)
  }

  ghost function Run(env: Env, w: World, events: seq<Event>): World
    decreases |events|
  {
    if events == [] then w else Run(env, Next(env, w, events[0]), events[1..])
  }

  ghost predicate StandingRun(env: Env, w: World, events: seq<Event>)
    decreases |events|
  {
    events == [] || (Standing(env, w, events[0]) && StandingRun(env, Next(env, w, events[0]), events[1..]))
  }

  /** No process yet, and an empty medium. */
  function Virgin(o: Options): World {
    var d := Blank(StoreOptionsOf(o));
    var s := Lineage.StoreState(d, d, EMPTY_MEDIUM, true, 0, o.limits.store, Fate(0, false, SnapshotLost, false));
    World(false, EngineState(o, s, ZERO_INCARNATION, 0, 0, [], Evidence.EMPTY_BOOK, true, true),
          History(Pairs(o.topology), o.policy.maxAttempts))
  }

  /** The invariant of a run between events. */
  ghost predicate WorldInv(env: Env, w: World) {
    && StoreInv(w.e.store, w.h)
    && (w.up ==> EngineInv(env, w.e, w.h))
  }

  lemma VirginInv(env: Env, o: Options)
    ensures WorldInv(env, Virgin(o))
  {
    var w := Virgin(o);
    var d := w.e.store.d;
    forall p: Lineage.StoreOptions ensures DescribesFor(EMPTY_MEDIUM, d, o.limits.store, p) {
      assert Fold(EMPTY_MEDIUM, p) == Some(Blank(p));
    }
    forall subject, generation ensures CountOf(d.attempts, subject, generation) == 0 && SeqnosOf(d.attempts, subject, generation) == {} {}
    hide Pairs;
  }

  /** What the medium will do says nothing about what is on it. */
  lemma FateKeeps(env: Env, e: EngineState, h: History, fate: Fate)
    requires EngineInv(env, e, h)
    ensures EngineInv(env, Fated(e, fate), h)
  {
    hide Inv, Describes, Settled;
  }

  lemma CallSteps(env: Env, e: EngineState, h: History, call: Call)
    requires EngineInv(env, e, h)
    requires call.SettingTopology? ==> NothingReinstated(h, e.store.disk.topology, Canonicalised(call.topology))
    requires call.Requesting? ==> HasRoom(env, e, call.request)
    ensures Stepped(env, e, h, Perform(env, e, call).0)
  {
    hide EngineInv, Stepped, NothingReinstated, HasRoom, Publish, SetPolicy, SetTopology, RequestFailover, RecordApplication,
      RecordVerification, RequestRollback, ResolveInterrupted, CheckpointCall, Close;
    match call
    case Observing(o) => PublishSteps(env, e, h, o);
    case SettingPolicy(p) => SetPolicySteps(env, e, h, p);
    case SettingTopology(t) => SetTopologySteps(env, e, h, t);
    case Requesting(q) => FailoverSteps(env, e, h, q);
    case Applying(r) => ApplicationSteps(env, e, h, r);
    case Verifying(r) => VerificationSteps(env, e, h, r);
    case RollingBack(q) => RollbackSteps(env, e, h, q);
    case Resolving(q) => ResolutionSteps(env, e, h, q);
    case Checkpointing => CheckpointSteps(env, e, h);
    case Closing => CloseSteps(env, e, h);
  }

  lemma SteppedMeans(env: Env, e: EngineState, h: History, f: EngineState)
    requires Stepped(env, e, h, f)
    ensures EngineInv(env, f, Grow(h, f.store.disk)) && StoreInv(f.store, Grow(h, f.store.disk))
    ensures Evolves(e.store.disk, h, f.store.disk, Grow(h, f.store.disk))
  {}

  /** One event keeps the invariant, and the lineage moves forward. */
  lemma NextKeeps(env: Env, w: World, ev: Event)
    requires WorldInv(env, w) && Standing(env, w, ev)
    ensures WorldInv(env, Next(env, w, ev))
    ensures Evolves(w.e.store.disk, w.h, Next(env, w, ev).e.store.disk, Next(env, w, ev).h)
  {
    hide StoreInv, EngineInv, Stepped, Perform, OpenEngine, Evolves, NothingReinstated, Grow, OpenReinstatesNothing, HasRoom, Reopened;
    StoreEvolvesSelf(w.e.store, w.h);
    match ev {
      case Calling(call, fate) =>
        if w.up {
          FateKeeps(env, w.e, w.h, fate);
          var e := Fated(w.e, fate);
          if call.Requesting? { HasRoomFated(env, w.e, fate, call.request); }
          CallSteps(env, e, w.h, call);
          SteppedMeans(env, e, w.h, Perform(env, e, call).0);
        }
      case Reopening(o, incarnation, fate) =>
        OpenSteps(env, o, incarnation, w.e.store, w.h, fate);
        match OpenEngine(o, incarnation, w.e.store, fate) {
          case Opened(e, _) => EngineHasStore(env, e, Grow(w.h, e.store.disk));
          case NotOpened(s, _, _) =>
        }
    }
  }

  lemma HasRoomFated(env: Env, e: EngineState, fate: Fate, q: FailoverRequest)
    ensures HasRoom(env, e, q) == HasRoom(env, Fated(e, fate), q)
  {
    hide CountOf, Takes, FindEntry, ActiveAuthority, Latest, Mismatches;
  }

  lemma EngineHasStore(env: Env, e: EngineState, h: History)
    requires EngineInv(env, e, h)
    ensures StoreInv(e.store, h)
  {}

  lemma StoreEvolvesSelf(s: StoreState, h: History)
    requires StoreInv(s, h)
    ensures Evolves(s.disk, h, s.disk, h)
  {
    SafeSelf(s, h);
  }

  /** Any run under the standing premise keeps the invariant, and its end comes after its start. */
  lemma {:induction false} RunKeeps(env: Env, w: World, events: seq<Event>)
    requires WorldInv(env, w) && StandingRun(env, w, events)
    ensures WorldInv(env, Run(env, w, events))
    ensures Evolves(w.e.store.disk, w.h, Run(env, w, events).e.store.disk, Run(env, w, events).h)
    decreases |events|
  {
    hide WorldInv, Evolves, Standing, Next;
    WorldEvolvesSelf(env, w);
    if events != [] {
      var n := Next(env, w, events[0]);
      NextKeeps(env, w, events[0]);
      RunKeeps(env, n, events[1..]);
      var z := Run(env, n, events[1..]);
      EvolvesOn(w.e.store.disk, w.h, n.e.store.disk, n.h, z.e.store.disk, z.h);
    }
  }

  lemma WorldEvolvesSelf(env: Env, w: World)
    requires WorldInv(env, w)
    ensures Evolves(w.e.store.disk, w.h, w.e.store.disk, w.h)
  {
    StoreEvolvesSelf(w.e.store, w.h);
  }

  // ---- what every run guarantees ----

  /** Where a run from an empty medium can be. */
  ghost predicate Reachable(env: Env, w: World) {
    exists o, events :: StandingRun(env, Virgin(o), events) && w == Run(env, Virgin(o), events)
  }

  lemma ReachableInv(env: Env, w: World)
    requires Reachable(env, w)
    ensures WorldInv(env, w)
  {
    hide WorldInv, StandingRun, Run, Virgin;
    var o, events :| StandingRun(env, Virgin(o), events) && w == Run(env, Virgin(o), events);
    VirginInv(env, o);
    RunKeeps(env, Virgin(o), events);
  }

  /**
   * Single winner. In every reachable state, after any calls, crashes and reopens, at most one
   * attempt of a link generation holds authority under the current epoch and coordinator - in the
   * live state, and in whatever state the medium describes.
   */
  lemma SingleWinner(env: Env, w: World, r: AttemptRecord, x: AttemptRecord)
    requires Reachable(env, w) && SamePair(r, x)
    ensures var d := w.e.store.d; r in d.attempts && x in d.attempts && Gate.HoldsNow(d, r) && Gate.HoldsNow(d, x) ==> r == x
    ensures var d := w.e.store.disk; r in d.attempts && x in d.attempts && Gate.HoldsNow(d, r) && Gate.HoldsNow(d, x) ==> r == x
  {
    hide Reachable;
    ReachableInv(env, w);
    var live, disk := w.e.store.d, w.e.store.disk;
    if r in live.attempts && x in live.attempts && Active(live, r) && Active(live, x) { AtMostOneActive(live, w.h, r, x); }
    if r in disk.attempts && x in disk.attempts && Active(disk, r) && Active(disk, x) { AtMostOneActive(disk, w.h, r, x); }
  }

  /** The gate sees the one winner: the active authority of a pair is every active record of the pair. */
  lemma WinnerIsSeen(env: Env, w: World, r: AttemptRecord)
    requires Reachable(env, w) && r in w.e.store.d.attempts && Active(w.e.store.d, r)
    ensures ActiveAuthority(w.e.store.d, r.subject, r.generation) == Some(r)
  {
    hide Reachable;
    var found := ActiveAuthority(w.e.store.d, r.subject, r.generation);
    assert OfPair(r, r.subject, r.generation);
    SingleWinner(env, w, r, found.value);
  }

  /**
   * Between calls every active authority carries the current policy and topology generations and
   * digests, and every pending directive tells, field by field, to apply such an attempt.
   */
  lemma AuthorityIsCurrent(env: Env, w: World)
    requires Reachable(env, w) && w.up && !w.e.store.failed
    ensures forall r :: r in w.e.store.d.attempts && Active(w.e.store.d, r) ==> Bound(env, w.e.store.d, r.authority)
    ensures forall n: nat, x :: x in PendingDirectives(w.e, n) ==>
              exists r :: r in w.e.store.d.attempts && Directives.Awaits(r) && Directives.Directs(x, r, w.e.tick)
                          && Active(w.e.store.d, r) && Bound(env, w.e.store.d, r.authority)
  {
    hide Reachable, PendingDirectives, Directives.Directs, Directives.DirectedOnce, Directives.AllEarlier, Directives.Waiting;
    ReachableInv(env, w);
    var d := w.e.store.d;
    assert forall r :: r in d.attempts ==> Settled(env, d, r);
    forall n: nat, x | x in PendingDirectives(w.e, n)
      ensures exists r :: r in d.attempts && Directives.Awaits(r) && Directives.Directs(x, r, w.e.tick) && Active(d, r) && Bound(env, d, r.authority)
    {
      Directives.ListingIs(w.e, n);
      var i :| 0 <= i < |PendingDirectives(w.e, n)| && PendingDirectives(w.e, n)[i] == x;
      var r :| r in d.attempts && Directives.Awaits(r) && Directives.Directs(PendingDirectives(w.e, n)[i], r, w.e.tick);
      assert Settled(env, d, r);
    }
  }

  /**
   * The listing in every reachable state: attempts that wait and no others, each once and in order,
   * cut only at the caller's bound or the engine's.
   */
  lemma ListingIsComplete(env: Env, w: World, n: nat)
    requires Reachable(env, w) && w.up
    ensures Directives.Listing(w.e, n, PendingDirectives(w.e, n))
  {
    hide Reachable, PendingDirectives;
    ReachableInv(env, w);
    Directives.ListingIs(w.e, n);
  }

  /**
   * Sequences and budget: the attempts of a current link generation are numbered exactly from 1 to
   * their count, so the next number is unused; an interrupted one is the latest; and the count is
   * within the largest budget that any policy so far allowed.
   */
  lemma SequencesAreFresh(env: Env, w: World, subject: LinkKey, generation: nat)
    requires Reachable(env, w)
    ensures var d := w.e.store.d;
            var count := CountOf(d.attempts, subject, generation);
            && count <= w.h.budget
            && (Defines(d.topology, subject, generation) ==>
                  && SeqnosOf(d.attempts, subject, generation) == UpTo(count)
                  && count + 1 !in SeqnosOf(d.attempts, subject, generation))
            && (forall r :: r in d.attempts && OfPair(r, subject, generation) && r.phase.Interrupted?
                            ==> Latest(d.attempts, subject, generation) == Some(r))
  {
    hide Reachable;
    ReachableInv(env, w);
    var d := w.e.store.d;
    PairsMeans(d.topology, subject, generation);
    assert Defines(d.topology, subject, generation) ==> Pair(subject, generation) in Pairs(d.topology);
    forall r | r in d.attempts && OfPair(r, subject, generation) && r.phase.Interrupted?
      ensures Latest(d.attempts, subject, generation) == Some(r)
    {
      assert Occupies(d, r);
      OccupiersMeet(d, w.h, r, Latest(d.attempts, subject, generation).value);
    }
  }

  /**
   * The lifecycle along any continuation of a run: each attempt of the lineage stays as it is,
   * climbs, or has been overwritten after its link generation was left; and epochs never fall.
   */
  lemma AttemptsOnlyClimb(env: Env, w: World, events: seq<Event>, r: AttemptRecord)
    requires Reachable(env, w) && StandingRun(env, w, events) && r in w.e.store.disk.attempts
    ensures Continues(Run(env, w, events).e.store.disk, Run(env, w, events).h, r)
    ensures w.e.store.disk.epoch <= Run(env, w, events).e.store.disk.epoch
  {
    hide Reachable, WorldInv, Run, StandingRun, Continues;
    ReachableInv(env, w);
    RunKeeps(env, w, events);
  }

  /** How many events of a run change the attempt of a link generation under a sequence. */
  ghost function Updates(env: Env, w: World, events: seq<Event>, subject: LinkKey, generation: nat, seqno: nat): nat
    decreases |events|
  {
    if events == [] then 0
    else
      var n := Next(env, w, events[0]);
      (if Updated(w.e.store.disk.attempts, n.e.store.disk.attempts, subject, generation, seqno) then 1 else 0)
      + Updates(env, n, events[1..], subject, generation, seqno)
  }

  lemma {:induction false} UpdatesUseHeadroom(env: Env, w: World, events: seq<Event>, subject: LinkKey, generation: nat, seqno: nat)
    requires WorldInv(env, w) && StandingRun(env, w, events)
    ensures var z := Run(env, w, events);
            Updates(env, w, events, subject, generation, seqno) + Headroom(z.e.store.disk, z.h, subject, generation, seqno)
            <= Headroom(w.e.store.disk, w.h, subject, generation, seqno)
    decreases |events|
  {
    hide WorldInv, Evolves, Standing, Next, Headroom, Updated;
    if events != [] {
      var n := Next(env, w, events[0]);
      NextKeeps(env, w, events[0]);
      HeadroomFalls(w.e.store.disk, w.h, n.e.store.disk, n.h, subject, generation, seqno);
      UpdatesUseHeadroom(env, n, events[1..], subject, generation, seqno);
    }
  }

  /**
   * Updates are bounded. Over any run, of any length, an attempt of one link generation changes at
   * most TOP_RANK times, and while it keeps its place at most as often as it climbed in rank.
   */
  lemma ChangesAreBounded(env: Env, w: World, events: seq<Event>, subject: LinkKey, generation: nat, seqno: nat)
    requires Reachable(env, w) && StandingRun(env, w, events)
    ensures Updates(env, w, events, subject, generation, seqno) <= TOP_RANK
    ensures var a := w.e.store.disk.attempts;
            var b := Run(env, w, events).e.store.disk.attempts;
            Holds(a, subject, generation, seqno) && Holds(b, subject, generation, seqno) ==>
              Updates(env, w, events, subject, generation, seqno) <= Rank(Lookup(b, subject, seqno).value) - Rank(Lookup(a, subject, seqno).value)
  {
    hide Reachable, WorldInv, Run, StandingRun, Updates, Rank;
    ReachableInv(env, w);
    UpdatesUseHeadroom(env, w, events, subject, generation, seqno);
  }

  /** A live state that has not failed is the state the medium describes. */
  lemma LiveIsOnDisk(env: Env, w: World)
    requires Reachable(env, w) && !w.e.store.failed
    ensures w.e.store.d == w.e.store.disk
  {
    hide Reachable;
    ReachableInv(env, w);
  }

  // ---- restarts ----

  /**
   * A restart restores no authority. After every successful reopening nothing is in flight and no
   * pair has an active authority; the new epoch exceeds that of every retained authority; each
   * attempt cut off is recorded as interrupted with the reason of the phase it was cut off in; and,
   * when the fence table has room, exactly that many new fences name them, in table order.
   */
  lemma RestartRestoresNothing(env: Env, w: World, o: Options, incarnation: Incarnation, fate: Fate)
    requires Reachable(env, w) && Standing(env, w, Reopening(o, incarnation, fate))
    requires OpenEngine(o, incarnation, w.e.store, fate).Opened?
    ensures var e := OpenEngine(o, incarnation, w.e.store, fate).e;
            && (forall r :: r in e.store.d.attempts ==> Terminal(r.phase) && r.authority.epoch < e.epoch)
            && (forall subject, generation :: ActiveAuthority(e.store.d, subject, generation).None?)
            && e.epoch == w.e.store.disk.epoch + 1
            && Reopened(w.e.store.disk, o.limits.store, e, OpenEngine(o, incarnation, w.e.store, fate).interrupted)
  {
    hide Reachable, EngineInv, StoreInv, Evolves, OpenEngine, Active, Recovered;
    ReachableInv(env, w);
    OpenSteps(env, o, incarnation, w.e.store, w.h, fate);
    var e := OpenEngine(o, incarnation, w.e.store, fate).e;
    forall subject, generation ensures ActiveAuthority(e.store.d, subject, generation).None? {}
  }

  /** Epochs of successful opens strictly increase along a run: a later boot's exceeds every earlier one's. */
  lemma EpochsRise(env: Env, w: World, events: seq<Event>, o: Options, incarnation: Incarnation, fate: Fate)
    requires Reachable(env, w) && w.up && !w.e.store.failed && StandingRun(env, w, events)
    requires var z := Run(env, w, events);
             Standing(env, z, Reopening(o, incarnation, fate)) && OpenEngine(o, incarnation, z.e.store, fate).Opened?
    ensures OpenEngine(o, incarnation, Run(env, w, events).e.store, fate).e.epoch > w.e.epoch
  {
    hide Reachable;
    ReachableInv(env, w);
    var z := Run(env, w, events);
    RunKeeps(env, w, events);
    hide EngineInv, StoreInv, OpenEngine, Run, StandingRun;
    assert StoreInv(z.e.store, z.h);
    OpenSteps(env, o, incarnation, z.e.store, z.h, fate);
    EpochOf(env, w);
  }

  lemma EpochOf(env: Env, w: World)
    requires WorldInv(env, w) && w.up && !w.e.store.failed
    ensures w.e.epoch == w.e.store.disk.epoch
  {}
}
