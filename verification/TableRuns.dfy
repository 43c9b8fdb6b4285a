/** The single winner under a premise that is read off the current table instead of the whole history. */
module TableRuns {
  import opened Basics
  import opened Records
  import opened Lineage
  import opened Table
  import opened Invariant
  import opened Lifecycle
  import opened Refinement
  import opened StoreSafety
  import opened Protocol
  import opened EngineSafety
  import opened EngineCalls
  import opened Restart
  import opened Runs

  // ---- the premise ----

  /** The topology that opening would put in force numbers the attempts of the medium. */
  ghost predicate OpensNumbered(was: StoreState, o: Options, fate: Fate) {
    var restored := OpenStore(was.medium, StoreOptionsOf(o), fate).0;
    restored.Restored? ==> NumberedUnder(was.disk.attempts, restored.state.topology)
  }

  /**
   * The premise by the table: under each new definition the attempts of every link generation it defines
   * are numbered from 1 to their count, the table takes what a failover request adds to it, and whoever
   * reopens leaves room for the table.
   */
  ghost predicate StandingNow(env: Env, w: World, ev: Event) {
    match ev
    case Calling(call, _) =>
      && (call.SettingTopology? ==> NumberedUnder(w.e.store.disk.attempts, Canonicalised(call.topology)))
      && (call.Requesting? ==> HasRoom(env, w.e, call.request))
    case Reopening(o, _, fate) =>
      |w.e.store.disk.attempts| <= o.limits.store.maxAttempts && OpensNumbered(w.e.store, o, fate)
  }

  ghost predicate StandingNowRun(env: Env, w: World, events: seq<Event>)
    decreases |events|
  {
    events == [] || (StandingNow(env, w, events[0]) && StandingNowRun(env, Next(env, w, events[0]), events[1..]))
  }

  /** What a caller checks: no link generation that the topology defines misses a number, or has one above its count. */
  lemma NumberedMeans(a: seq<AttemptRecord>, t: Topology)
    ensures NumberedUnder(a, t) <==>
              forall subject, generation, n: nat :: Defines(t, subject, generation) ==>
                (n in SeqnosOf(a, subject, generation) <==> 1 <= n <= CountOf(a, subject, generation))
  {
    hide Defines, Pairs, SeqnosOf, CountOf;
    forall subject, generation ensures Pair(subject, generation) in Pairs(t) <==> Defines(t, subject, generation) {
      PairsMeans(t, subject, generation);
    }
    if forall subject, generation, n: nat :: Defines(t, subject, generation) ==>
         (n in SeqnosOf(a, subject, generation) <==> 1 <= n <= CountOf(a, subject, generation)) {
      forall p | p in Pairs(t) ensures SeqnosOf(a, p.subject, p.generation) == UpTo(CountOf(a, p.subject, p.generation)) {
        assert p == Pair(p.subject, p.generation) && Defines(t, p.subject, p.generation);
      }
    }
    if NumberedUnder(a, t) {
      forall subject, generation, n: nat | Defines(t, subject, generation)
        ensures n in SeqnosOf(a, subject, generation) <==> 1 <= n <= CountOf(a, subject, generation)
      {
        var p := Pair(subject, generation);
        assert p in Pairs(t);
        assert SeqnosOf(a, p.subject, p.generation) == UpTo(CountOf(a, p.subject, p.generation));
      }
    }
  }

  // ---- a definition ----

  lemma DefinitionLands(s: StoreState, h: History, t: Topology)
    requires StoreInv(s, h) && NumberedUnder(s.disk.attempts, t)
    ensures StoreInv(Commit(s, TopologyCommit(t)), Grow(h, Commit(s, TopologyCommit(t)).disk))
  {
    hide Inv, Describes, NumberedUnder, Grow, Evolves;
    var rec := TopologyCommit(t);
    var f := Commit(s, rec);
    SafeSelf(s, h);
    if !s.failed && s.d.lastSeq + 1 < U64_LIMIT && (s.fate.room > 0 || s.fate.lands) {
      NumberedKeeps(s.d, h, After(s.d, rec, s.limits));
      AppendDescribes(s.medium, s.d, h, rec, s.limits);
      GrowGrows(h, f.disk);
      InvMore(s.d, h, Grow(h, f.disk));
    }
  }

  lemma RevokedKeeps(env: Env, installed: EngineState, k: History, kind: FenceKind)
    requires Midway(installed, k, installed.store.d.attempts) && !installed.store.failed
    ensures var revoked := RevokeAll(installed, kind, installed.store.d.attempts);
            && EngineInv(env, revoked, k)
            && revoked.store.disk.policy == installed.store.disk.policy && revoked.store.disk.topology == installed.store.disk.topology
  {
    hide Inv, Describes, Evolves, RevokeAll, Revoking;
    var rest := installed.store.d.attempts;
    RevokeAllMidway(installed, k, kind, rest);
    RevokeDefinitions(installed, kind, rest);
    var revoked := RevokeAll(installed, kind, rest);
    if !revoked.store.failed { RevokedBoundary(env, revoked.store.d); }
  }

  lemma InstalledKeeps(env: Env, e: EngineState, h: History, t: Topology)
    requires EngineInv(env, e, h) && NumberedUnder(e.store.disk.attempts, t)
    ensures var f := Install(e, TopologyCommit(t), TopologyChanged).0; EngineInv(env, f, Grow(h, f.store.disk))
  {
    hide Inv, Describes, RevokeAll, Grow, NumberedUnder, After, Settled;
    DefinitionLands(e.store, h, t);
    var installed := Write(e, TopologyCommit(t));
    var k := Grow(h, installed.store.disk);
    if installed.store.failed {
      assert installed.store.d == e.store.d;
    } else {
      InstallView(e.store.d, TopologyCommit(t), e.store.limits);
      InstallMidway(env, e, h, installed, k);
      RevokedKeeps(env, installed, k, TopologyChanged);
      GrowReads(h, installed.store.disk, RevokeAll(installed, TopologyChanged, installed.store.d.attempts).store.disk);
    }
  }

  lemma SetTopologyKeeps(env: Env, e: EngineState, h: History, t: Topology)
    requires EngineInv(env, e, h) && NumberedUnder(e.store.disk.attempts, Canonicalised(t))
    ensures var f := SetTopology(env, e, t).0; EngineInv(env, f, Grow(h, f.store.disk))
  {
    hide EngineInv, Install, Canonicalised, NumberedUnder, TopologyFault, Grow, StoreInv;
    EngineHasStore(env, e, h);
    StoreGrows(e.store, h);
    InstalledKeeps(env, e, h, Canonicalised(t));
  }

  lemma StoreGrows(s: StoreState, h: History)
    requires StoreInv(s, h)
    ensures Grow(h, s.disk) == h
  {
    hide StoreInv, Grow;
    SafeSelf(s, h);
  }

  // ---- opening ----

  /** Opening, however it ends, keeps the invariant when it numbers the attempts of the medium. */
  lemma OpenKeeps(env: Env, o: Options, incarnation: Incarnation, was: StoreState, h: History, fate: Fate)
    requires StoreInv(was, h) && |was.disk.attempts| <= o.limits.store.maxAttempts && OpensNumbered(was, o, fate)
    ensures match OpenEngine(o, incarnation, was, fate)
            case Opened(e, _) => EngineInv(env, e, Grow(h, e.store.disk))
            case NotOpened(s, _, _) => StoreInv(s, Grow(h, s.disk))
  {
    hide StoreInv, BootStore, OpenStore, NumberedUnder, EngineInv, Grow, Restarted, Alike, OptionsFault, Evolves;
    OpenOutcome(o, incarnation, was, fate);
    StoreGrows(was, h);
    var (restored, m) := OpenStore(was.medium, StoreOptionsOf(o), fate);
    if OptionsFault(o).None? && restored.Restored? {
      OpenedKeeps(was, h, StoreOptionsOf(o), fate);
      var x := restored.state;
      var s := Lineage.StoreState(x, x, m, false, 0, o.limits.store, fate);
      var k := Grow(h, x);
      BootSteps(env, o, incarnation, s, k);
      BootDefinitions(o, incarnation, s);
      match BootStore(o, incarnation, s) {
        case Opened(e, _) => GrowReads(h, x, e.store.disk);
        case NotOpened(t, _, _) =>
          SafeEvolves(s, k, t, k);
          GrowReads(h, x, t.disk);
      }
    }
  }

  // ---- runs ----

  /** One event under the premise by the table keeps the invariant. */
  lemma NextNowKeeps(env: Env, w: World, ev: Event)
    requires WorldInv(env, w) && StandingNow(env, w, ev)
    ensures WorldInv(env, Next(env, w, ev))
  {
    hide StoreInv, EngineInv, Stepped, Perform, OpenEngine, Evolves, NumberedUnder, Grow, OpensNumbered, HasRoom;
    match ev {
      case Calling(call, fate) =>
        if w.up {
          FateKeeps(env, w.e, w.h, fate);
          var e := Fated(w.e, fate);
          if call.SettingTopology? {
            SetTopologyKeeps(env, e, w.h, call.topology);
            PerformDefinition(env, e, call.topology);
            EngineHasStore(env, Perform(env, e, call).0, Grow(w.h, Perform(env, e, call).0.store.disk));
          } else {
            if call.Requesting? { HasRoomFated(env, w.e, fate, call.request); }
            CallSteps(env, e, w.h, call);
            SteppedMeans(env, e, w.h, Perform(env, e, call).0);
          }
        }
      case Reopening(o, incarnation, fate) =>
        OpenKeeps(env, o, incarnation, w.e.store, w.h, fate);
        match OpenEngine(o, incarnation, w.e.store, fate) {
          case Opened(e, _) => EngineHasStore(env, e, Grow(w.h, e.store.disk));
          case NotOpened(s, _, _) =>
        }
    }
  }

  lemma PerformDefinition(env: Env, e: EngineState, t: Topology)
    ensures Perform(env, e, SettingTopology(t)) == SetTopology(env, e, t)
  {
    hide SetTopology;
  }

  lemma {:induction false} RunNowKeeps(env: Env, w: World, events: seq<Event>)
    requires WorldInv(env, w) && StandingNowRun(env, w, events)
    ensures WorldInv(env, Run(env, w, events))
    decreases |events|
  {
    hide WorldInv, StandingNow, Next;
    if events != [] {
      NextNowKeeps(env, w, events[0]);
      RunNowKeeps(env, Next(env, w, events[0]), events[1..]);
    }
  }

  /** Where a run under the premise by the table can be. */
  ghost predicate ReachableNow(env: Env, w: World) {
    exists o, events :: StandingNowRun(env, Virgin(o), events) && w == Run(env, Virgin(o), events)
  }

  lemma ReachableNowInv(env: Env, w: World)
    requires ReachableNow(env, w)
    ensures WorldInv(env, w)
  {
    hide WorldInv, StandingNowRun, Run, Virgin;
    var o, events :| StandingNowRun(env, Virgin(o), events) && w == Run(env, Virgin(o), events);
    VirginInv(env, o);
    RunNowKeeps(env, Virgin(o), events);
  }

  /**
   * Single winner, by the table. In every state of every run whose definitions bring back only generations
   * whose attempts are numbered - none is left of them, or none is missing - at most one attempt of a link
   * generation holds authority under the current epoch and coordinator, live and on the medium.
   */
  lemma SingleWinnerByTable(env: Env, w: World, r: AttemptRecord, x: AttemptRecord)
    requires ReachableNow(env, w) && SamePair(r, x)
    ensures var d := w.e.store.d; r in d.attempts && x in d.attempts && Active(d, r) && Active(d, x) ==> r == x
    ensures var d := w.e.store.disk; r in d.attempts && x in d.attempts && Active(d, r) && Active(d, x) ==> r == x
  {
    hide ReachableNow;
    ReachableNowInv(env, w);
    var live, disk := w.e.store.d, w.e.store.disk;
    if r in live.attempts && x in live.attempts && Active(live, r) && Active(live, x) { AtMostOneActive(live, w.h, r, x); }
    if r in disk.attempts && x in disk.attempts && Active(disk, r) && Active(disk, x) { AtMostOneActive(disk, w.h, r, x); }
  }

  // ---- it is weaker than the standing premise ----

  lemma DiskNumbered(s: StoreState, h: History, t: Topology)
    requires StoreInv(s, h) && NothingReinstated(h, s.disk.topology, t)
    ensures NumberedUnder(s.disk.attempts, t)
  {
    hide Inv, Describes, NothingReinstated, NumberedUnder;
    NewIsNumbered(s.disk, h, t);
  }

  lemma StandingIsNow(env: Env, w: World, ev: Event)
    requires WorldInv(env, w) && Standing(env, w, ev)
    ensures StandingNow(env, w, ev)
  {
    hide StoreInv, EngineInv, HasRoom, NothingReinstated, NumberedUnder, OpenStore, Canonicalised;
    match ev
    case Calling(call, _) =>
      if call.SettingTopology? { DiskNumbered(w.e.store, w.h, Canonicalised(call.topology)); }
    case Reopening(o, _, fate) =>
      var (restored, _) := OpenStore(w.e.store.medium, StoreOptionsOf(o), fate);
      if restored.Restored? { DiskNumbered(w.e.store, w.h, restored.state.topology); }
  }

  /** Every run under the standing premise is one under the weaker premise. */
  lemma {:induction false} StandingRunIsNow(env: Env, w: World, events: seq<Event>)
    requires WorldInv(env, w) && StandingRun(env, w, events)
    ensures StandingNowRun(env, w, events)
    decreases |events|
  {
    hide WorldInv, Standing, StandingNow, Next, Evolves;
    if events != [] {
      StandingIsNow(env, w, events[0]);
      NextKeeps(env, w, events[0]);
      StandingRunIsNow(env, Next(env, w, events[0]), events[1..]);
    }
  }

  lemma ReachableIsNow(env: Env, w: World)
    requires Reachable(env, w)
    ensures ReachableNow(env, w)
  {
    hide WorldInv, StandingRun, StandingNowRun, Run, Virgin;
    var o, events :| StandingRun(env, Virgin(o), events) && w == Run(env, Virgin(o), events);
    VirginInv(env, o);
    StandingRunIsNow(env, Virgin(o), events);
  }
}
