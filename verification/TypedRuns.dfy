/** Along every run of values in their ranges: each record and each snapshot on the medium reads back, and every crash is clean. */
module TypedRuns {
  import opened Basics
  import opened Records
  import opened Lineage
  import opened Invariant
  import opened Refinement
  import opened StoreSafety
  import opened RecordCodec
  import opened Payloads
  import opened Durability
  import opened Protocol
  import opened Grants
  import opened Idempotency
  import opened Runs
  import opened TypedStore
  import opened TypedCalls
  import Evidence
  import IndexEntries
  import J = JournalBytes
  import Snapshot

  /** The arguments are in the ranges of their types, and the clock has a tick left. */
  predicate TypedEvent(w: World, ev: Event) {
    match ev
    case Calling(call, _) => TypedCall(call) && Long(w.e.tick + 1)
    case Reopening(o, incarnation, _) => TypedOptions(o) && IsIncarnation(incarnation)
  }

  predicate TypedWorld(w: World) { TypedMedium(w.e.store.medium) && (w.up ==> TypedEngine(w.e)) }

  ghost predicate TypedRun(env: Env, w: World, events: seq<Event>)
    decreases |events|
  {
    events == [] || (TypedEvent(w, events[0]) && TypedRun(env, Next(env, w, events[0]), events[1..]))
  }

  /** One event keeps a world well typed, and takes at most one tick. */
  lemma NextTyped(env: Env, w: World, ev: Event)
    requires RealEnv(env) && TypedWorld(w) && TypedEvent(w, ev)
    ensures TypedWorld(Next(env, w, ev)) && Next(env, w, ev).e.tick <= w.e.tick + 1
  {
    hide RealEnv, TypedMedium, TypedEngine, TypedCall, TypedOptions, Perform, OpenEngine, Grow;
    match ev
    case Calling(call, fate) =>
      if w.up {
        FatedTyped(w.e, fate);
        CallTyped(env, Fated(w.e, fate), call);
        EngineMedium(Perform(env, Fated(w.e, fate), call).0);
      }
    case Reopening(o, incarnation, fate) =>
      OpenTyped(o, incarnation, w.e.store, fate);
      match OpenEngine(o, incarnation, w.e.store, fate) {
        case Opened(e, _) => LaunchedTyped(e);
        case NotOpened(_, _, _) =>
      }
  }

  lemma FatedTyped(e: EngineState, fate: Fate)
    requires TypedEngine(e)
    ensures TypedEngine(Fated(e, fate))
  {
    hide TypedState, TypedMedium, TypedBook;
  }

  lemma EngineMedium(e: EngineState)
    requires TypedEngine(e)
    ensures TypedMedium(e.store.medium) && TypedState(e.store.d)
  {
    hide TypedState, TypedMedium, TypedBook;
  }

  /** A process that has just opened. */
  lemma LaunchedTyped(e: EngineState)
    requires OptionsFault(e.options).None? && TypedOptions(e.options) && IsIncarnation(e.incarnation) && Long(e.epoch) && e.tick == 0
    requires TypedStoreState(e.store) && e.book == Evidence.EMPTY_BOOK
    ensures TypedEngine(e) && TypedMedium(e.store.medium)
  {
    hide TypedState, TypedMedium, PolicyOk, TopologyOk, TopologyFault, ValidPolicy, ValidName;
  }

  lemma VirginTyped(o: Options)
    ensures TypedWorld(Virgin(o))
  {
    hide Pairs;
  }

  lemma {:induction false} RunTyped(env: Env, w: World, events: seq<Event>)
    requires RealEnv(env) && TypedWorld(w) && TypedRun(env, w, events)
    ensures TypedWorld(Run(env, w, events))
    decreases |events|
  {
    hide RealEnv, TypedWorld, TypedEvent, Next;
    if events != [] {
      NextTyped(env, w, events[0]);
      RunTyped(env, Next(env, w, events[0]), events[1..]);
    }
  }

  /** Arguments in their ranges, whatever the clock says. */
  predicate TypedArguments(ev: Event) {
    match ev
    case Calling(call, _) => TypedCall(call)
    case Reopening(o, incarnation, _) => TypedOptions(o) && IsIncarnation(incarnation)
  }

  /** No run of fewer than 2^64 events can use up the clock. */
  lemma {:induction false} ShortRunIsTyped(env: Env, w: World, events: seq<Event>)
    requires RealEnv(env) && TypedWorld(w) && (forall ev :: ev in events ==> TypedArguments(ev)) && Long(w.e.tick + |events|)
    ensures TypedRun(env, w, events)
    decreases |events|
  {
    hide RealEnv, TypedWorld, TypedCall, TypedOptions, Next;
    if events != [] {
      assert TypedArguments(events[0]);
      NextTyped(env, w, events[0]);
      ShortRunIsTyped(env, Next(env, w, events[0]), events[1..]);
    }
  }

  // ---- what every such run guarantees ----

  /** Where a run from an empty medium can be, its arguments in their ranges. */
  ghost predicate TypedReachable(env: Env, w: World) {
    exists o, events :: StandingRun(env, Virgin(o), events) && TypedRun(env, Virgin(o), events) && w == Run(env, Virgin(o), events)
  }

  lemma ReachableTyped(env: Env, w: World)
    requires RealEnv(env) && TypedReachable(env, w)
    ensures Reachable(env, w) && TypedWorld(w)
  {
    hide RealEnv, TypedWorld, TypedRun, StandingRun, Run, Virgin;
    var o, events :| StandingRun(env, Virgin(o), events) && TypedRun(env, Virgin(o), events) && w == Run(env, Virgin(o), events);
    VirginTyped(o);
    RunTyped(env, Virgin(o), events);
  }

  /** In every reachable world replay reads each record of the journal as it was committed. */
  lemma RecordsReadBack(env: Env, w: World, b: Build)
    requires RealEnv(env) && TypedReachable(env, w) && BuildOk(b)
    ensures forall e :: e in EntriesOf(w.e.store.medium) ==> Carries(TheCodec(b), e.record)
  {
    hide RealEnv, TypedReachable, Reachable, TypedEngine, Carries, TheCodec, RecordOk, TypedRecord, TypedState;
    ReachableTyped(env, w);
    forall e | e in EntriesOf(w.e.store.medium) ensures Carries(TheCodec(b), e.record) {
      TypedIsOk(e.record);
      EveryRecordIsCarried(b, e.record);
    }
  }

  /**
   * In every reachable world the snapshot on the medium is accepted and decoded to the state it was taken
   * of, as long as its tables are within the decoder's bound.
   */
  lemma SnapshotReadsBack(env: Env, w: World)
    requires RealEnv(env) && TypedReachable(env, w)
    requires w.e.store.medium.snapshot.Some? && Sized(w.e.store.medium.snapshot.value, Snapshot.MAX_ELEMENTS)
    ensures var d := w.e.store.medium.snapshot.value;
            Snapshot.StateOk(d) && Snapshot.Serialise(d).Some? && Snapshot.Deserialise(Snapshot.Serialise(d).value) == Some(d)
  {
    hide RealEnv, TypedReachable, Reachable, TypedEngine, Snapshot.Serialise, Snapshot.Deserialise, Sized, TypedState;
    ReachableTyped(env, w);
    TypedStateIsOk(w.e.store.medium.snapshot.value);
    Snapshot.StateReadsBack(w.e.store.medium.snapshot.value);
  }

  /**
   * The crash refinement for the engine's own journal. In every reachable world, cut the next legal
   * record's bytes anywhere: reopening delivers the state after all completed commits, with that
   * record if it is whole and without it otherwise, and leaves a file of exactly the delivered records.
   */
  lemma CrashInAnyReachableWorld(env: Env, w: World, sum: J.Checksum, b: Build, rec: Record, o: Lineage.StoreOptions, cut: nat)
    requires RealEnv(env) && TypedReachable(env, w) && Appending(w.e.store, w.h, rec, o) && BuildOk(b)
    requires cut <= |BytesOfNext(sum, b, w.e.store, rec)|
    ensures CrashesCleanly(sum, TheCodec(b), w.e.store.medium, w.e.store.d, rec, o, cut)
  {
    hide RealEnv, Reachable, TypedReachable, TypedEngine, Appending, CrashesCleanly, BytesOfNext, StoreInv, TheCodec, TypedState, TypedRecord, RecordOk;
    ReachableTyped(env, w);
    ReachableInv(env, w);
    forall e | e in EntriesOf(w.e.store.medium) ensures RecordOk(e.record) { TypedIsOk(e.record); }
    CrashWhileAppending(sum, b, w.e.store, w.h, rec, o, cut);
  }

  // ---- sessions ----

  lemma {:induction false} SessionTyped(env: Env, e: EngineState, calls: seq<(Call, Fate)>, k: nat)
    requires RealEnv(env) && TypedEngine(e) && (forall i :: 0 <= i < |calls| ==> TypedCall(calls[i].0))
    requires k <= |calls| && Long(e.tick + |calls|)
    ensures TypedEngine(Converse(env, e, calls[..k]).e) && Converse(env, e, calls[..k]).e.tick <= e.tick + k
    decreases k
  {
    hide RealEnv, Perform, TypedEngine, TypedCall;
    if k > 0 {
      var n := k - 1;
      SessionTyped(env, e, calls, n);
      assert calls[..k][..n] == calls[..n] && calls[..k][n] == calls[n];
      var before := Converse(env, e, calls[..n]).e;
      FatedTyped(before, calls[n].1);
      CallTyped(env, Fated(before, calls[n].1), calls[n].0);
    }
  }

  lemma TypedIsNamed(e: EngineState)
    requires TypedEngine(e)
    ensures IndexEntries.NamedEngine(e)
  {
    hide TypedPolicy, TypedAttempt, TypedBook, TypedMedium, ValidName, TopologyFault, TypedTables, TypedCounters;
  }

  lemma TypedRequestIsNamed(q: FailoverRequest)
    requires TypedRequest(q) && LinkOk(q.subject)
    ensures IndexEntries.NamedRequest(q)
  {
    hide LinkOk;
  }

  /** Over any calls with arguments in their ranges, room in the index or not, the index takes the entry of every grant. */
  lemma EveryGrantIsTaken(env: Env, e: EngineState, calls: seq<(Call, Fate)>)
    requires RealEnv(env) && TypedEngine(e) && Long(e.tick + |calls|)
    requires forall i :: 0 <= i < |calls| ==> TypedCall(calls[i].0) && (calls[i].0.Requesting? ==> LinkOk(calls[i].0.request.subject))
    ensures GrantsFit(env, e, calls)
  {
    hide RealEnv, Perform, RequestFailover, TypedEngine, TypedRequest, GrantsAnew, EntryTaken, Converse, LinkOk, IndexEntries.RealIndex;
    forall k | 0 <= k < |calls| && calls[k].0.Requesting?
      ensures var reply := Perform(env, Fated(Converse(env, e, calls[..k]).e, calls[k].1), calls[k].0).1;
              GrantsAnew(reply) ==> EntryTaken(env, reply, calls[k].0.request.key)
    {
      SessionTyped(env, e, calls, k);
      var before := Fated(Converse(env, e, calls[..k]).e, calls[k].1);
      FatedTyped(Converse(env, e, calls[..k]).e, calls[k].1);
      var q := calls[k].0.request;
      PerformRequest(env, before, q);
      TypedIsNamed(before);
      TypedRequestIsNamed(q);
      RealIsReal(env);
      if GrantsAnew(RequestFailover(env, before, q).1) { IndexEntries.GrantIsTaken(env, before, q); }
    }
  }

  lemma RealIsReal(env: Env)
    requires RealEnv(env)
    ensures IndexEntries.RealIndex(env)
  {
    hide IndexEntries.RealIndex;
  }
}
