/** What the calls that change definitions, compact and close answer, and which fences a definition writes. */
module Definitions {
  import opened Basics
  import opened Reasons
  import opened Records
  import opened Sorting
  import opened Lineage
  import opened Protocol
  import opened Answers
  import Selector

  // ---- what a definition must be ----

  /** The policy's numbers are within the source's bounds. */
  lemma ValidPolicyMeans(p: Policy)
    ensures ValidPolicy(p) <==>
              && p.generation != 0 && p.minFailureConfidence <= 1000 && p.minReplacementConfidence <= 1000
              && 1 <= p.evidenceMaxAge <= 0x100_0000_0000 && 1 <= p.maxCandidates <= 256 && 1 <= p.maxAttempts <= 1024 && 1 <= p.maxRetained <= 256
  {}

  /** Named links under generations that are not zero, strictly ascending by link, at most 4096 of them. */
  ghost predicate WellDefined(t: Topology) {
    && |t.links| <= 4096
    && (forall d :: d in t.links ==> d.link.fabric != [] && d.link.link != [] && d.generation != 0)
    && forall i, j :: 0 <= i < j < |t.links| ==> LinkLess(t.links[i].link, t.links[j].link)
  }

  lemma {:induction false} Ascends(links: seq<LinkDefinition>, i: nat, j: nat)
    requires i < j < |links| && forall k :: 0 < k < |links| ==> LinkLess(links[k - 1].link, links[k].link)
    ensures LinkLess(links[i].link, links[j].link)
    decreases j
  {
    if i < j - 1 {
      Ascends(links, i, j - 1);
      LinkLessTransitive(links[i].link, links[j - 1].link, links[j].link);
    }
  }

  lemma TopologyFaultMeans(t: Topology)
    ensures TopologyFault(t).None? <==> WellDefined(t)
    ensures |t.links| > 4096 ==> TopologyFault(t).Some?
    ensures TopologyFault(t).Some? ==>
              TopologyFault(t).value == if |t.links| > 4096 then (Outcome.LimitExceeded, LIMIT_EXCEEDED) else (Outcome.Invalid, INVALID_ARGUMENT)
  {
    hide LinkLess;
    if TopologyFault(t).None? {
      forall i, j | 0 <= i < j < |t.links| ensures LinkLess(t.links[i].link, t.links[j].link) { Ascends(t.links, i, j); }
    }
  }

  /** The topology that is considered: the same links under the same generation, in order of their links, the newer of two first. */
  ghost predicate Arranged(t: Topology, c: Topology) {
    && c.generation == t.generation && multiset(c.links) == multiset(t.links)
    && forall i, j :: 0 <= i < j < |c.links| ==>
         LinkLess(c.links[i].link, c.links[j].link) || (c.links[i].link == c.links[j].link && c.links[i].generation >= c.links[j].generation)
  }

  lemma DefinitionOrder()
    ensures StrictOrder(DefinitionLess)
  {
    forall a: LinkDefinition ensures !DefinitionLess(a, a) {
      LinkLessStrictTotal(a.link, a.link);
    }
    forall a: LinkDefinition, b: LinkDefinition, c: LinkDefinition
      ensures DefinitionLess(a, b) && DefinitionLess(b, c) ==> DefinitionLess(a, c)
      ensures DefinitionLess(a, c) ==> DefinitionLess(a, b) || DefinitionLess(b, c)
    {
      LinkOrderCases(a.link, b.link, c.link);
    }
  }

  lemma CanonicalIsArranged(t: Topology)
    ensures Arranged(t, Canonicalised(t))
  {
    hide Sort, LinkLess;
    DefinitionOrder();
    SortIsSorted(t.links, DefinitionLess);
    var links := Canonicalised(t).links;
    forall i, j | 0 <= i < j < |links|
      ensures LinkLess(links[i].link, links[j].link) || (links[i].link == links[j].link && links[i].generation >= links[j].generation)
    {
      assert !DefinitionLess(links[j], links[i]);
      LinkLessStrictTotal(links[i].link, links[j].link);
    }
  }

  // ---- the fences of a definition ----

  predicate Holder(r: AttemptRecord) { r.phase in {Authorized, Acknowledged, Phase.Verified, Phase.Committed} }

  /** One fence for each authority holder of the table, in its order, each in the place after the attempt's own record. */
  function RevocationFences(rest: seq<AttemptRecord>, kind: FenceKind, epoch: nat, incarnation: Incarnation, seqno: nat): seq<FenceRecord>
    decreases |rest|
  {
    if rest == [] then []
    else if !Holder(rest[0]) then RevocationFences(rest[1..], kind, epoch, incarnation, seqno)
    else [FenceRecord(kind, rest[0].subject, rest[0].generation, rest[0].seqno, epoch, incarnation, seqno + 2, [])]
         + RevocationFences(rest[1..], kind, epoch, incarnation, seqno + 2)
  }

  lemma CommitPlaces(e: EngineState, rec: Record)
    requires !Write(e, rec).store.failed
    ensures var f := Write(e, rec);
            && f.store.d.lastSeq == e.store.d.lastSeq + 1 && f.store.limits == e.store.limits && f.epoch == e.epoch && f.incarnation == e.incarnation
            && (!rec.FencePut? ==> f.store.d.fences == e.store.d.fences)
            && (rec.FencePut? && |e.store.d.fences| < e.store.limits.maxFences ==>
                  f.store.d.fences == e.store.d.fences + [rec.fence.(seqno := e.store.d.lastSeq + 1)])
            && !e.store.failed
            && (!rec.AttemptPut? ==> f.store.d.attempts == e.store.d.attempts)
  {
    hide RetainAttempts, Upsert, WithEntry, RetainEntries;
  }

  lemma RevokeOneFences(e: EngineState, kind: FenceKind, r: AttemptRecord)
    requires !RevokeOne(e, kind, r).store.failed && |e.store.d.fences| < e.store.limits.maxFences
    ensures var f := RevokeOne(e, kind, r);
            && f.store.d.fences == e.store.d.fences + [FenceRecord(kind, r.subject, r.generation, r.seqno, e.epoch, e.incarnation, e.store.d.lastSeq + 2, [])]
            && f.store.d.lastSeq == e.store.d.lastSeq + 2 && f.store.limits == e.store.limits && f.epoch == e.epoch && f.incarnation == e.incarnation
  {
    hide Write, Revoked;
    CommitPlaces(e, AttemptPut(Update, Revoked(r)));
    var put := Write(e, AttemptPut(Update, Revoked(r)));
    CommitPlaces(put, Protocol.Fence(e, kind, r));
  }

  lemma FailureStays(e: EngineState, kind: FenceKind, rest: seq<AttemptRecord>)
    ensures e.store.failed ==> RevokeAll(e, kind, rest) == e
  {}

  lemma {:induction false} RevocationWrites(e: EngineState, kind: FenceKind, rest: seq<AttemptRecord>)
    requires !RevokeAll(e, kind, rest).store.failed
    requires |e.store.d.fences| + |RevocationFences(rest, kind, e.epoch, e.incarnation, e.store.d.lastSeq)| <= e.store.limits.maxFences
    ensures RevokeAll(e, kind, rest).store.d.fences
         == e.store.d.fences + RevocationFences(rest, kind, e.epoch, e.incarnation, e.store.d.lastSeq)
    decreases |rest|
  {
    hide RevokeOne;
    if rest != [] && !e.store.failed {
      if HoldsAuthority(rest[0].phase) {
        var one := RevokeOne(e, kind, rest[0]);
        FailureStays(one, kind, rest[1..]);
        RevokeOneFences(e, kind, rest[0]);
        RevocationWrites(one, kind, rest[1..]);
      } else {
        RevocationWrites(e, kind, rest[1..]);
      }
    } else {
      FailureStays(e, kind, rest);
    }
  }

  /** The definition is in force and every holder fenced, as far as the fence table has room; or the store has failed. */
  ghost predicate Installed(e: EngineState, kind: FenceKind, f: EngineState, reply: Reply) {
    || (f.store.failed && f.storeFailed
        && reply == Failed(if !e.store.failed && f.store.d.lastSeq == e.store.d.lastSeq && e.store.d.lastSeq + 1 >= U64_LIMIT then Outcome.Exhausted else Outcome.IoError,
                           INTERNAL_ERROR))
    || (reply == Reply.Done && !f.store.failed
        && var fences := RevocationFences(e.store.d.attempts, kind, e.epoch, e.incarnation, e.store.d.lastSeq + 1);
           |e.store.d.fences| + |fences| <= e.store.limits.maxFences ==> f.store.d.fences == e.store.d.fences + fences)
  }

  lemma {:induction false} RevokingMoves(e: EngineState, kind: FenceKind, rest: seq<AttemptRecord>)
    requires e.store.failed ==> e.storeFailed
    ensures var f := RevokeAll(e, kind, rest);
            f.store.d.lastSeq >= e.store.d.lastSeq && (f.store.failed ==> f.storeFailed)
    decreases |rest|
  {
    hide Commit, Revoked;
    if rest != [] && !e.store.failed {
      if HoldsAuthority(rest[0].phase) {
        CommitMoves(e.store, AttemptPut(Update, Revoked(rest[0])));
        var put := Write(e, AttemptPut(Update, Revoked(rest[0])));
        CommitMoves(put.store, Protocol.Fence(e, kind, rest[0]));
        RevokingMoves(RevokeOne(e, kind, rest[0]), kind, rest[1..]);
      } else {
        RevokingMoves(e, kind, rest[1..]);
      }
    }
  }

  lemma InstallIsInstalled(e: EngineState, rec: Record, kind: FenceKind)
    requires rec.PolicyCommit? || rec.TopologyCommit?
    ensures Installed(e, kind, Install(e, rec, kind).0, Install(e, rec, kind).1)
  {
    hide Commit, RevokeAll, RevocationFences;
    CommitMoves(e.store, rec);
    var installed := Write(e, rec);
    if !installed.store.failed {
      RevokingMoves(installed, kind, installed.store.d.attempts);
      CommitPlaces(e, rec);
      var revoked := RevokeAll(installed, kind, installed.store.d.attempts);
      var fences := RevocationFences(e.store.d.attempts, kind, e.epoch, e.incarnation, e.store.d.lastSeq + 1);
      if !revoked.store.failed && |e.store.d.fences| + |fences| <= e.store.limits.maxFences {
        RevocationWrites(installed, kind, installed.store.d.attempts);
      }
    }
  }

  // ---- the answers ----

  /** Every answer to a policy. */
  ghost predicate PolicyAnswered(env: Env, e: EngineState, p: Policy, f: EngineState, reply: Reply) {
    var current := e.store.d.policy;
    if e.closed then f == e && reply == Failed(Outcome.Closed, SHUTDOWN)
    else if !ValidPolicy(p) then f == e && reply == Failed(Outcome.Invalid, POLICY_REJECTED)
    else if p.generation < current.generation then f == e && reply == Failed(Outcome.Stale, POLICY_GENERATION_MISMATCH)
    else if p.generation == current.generation then
      f == e && reply == (if env.h.policy(p) == env.h.policy(current) then Reply.Done else Failed(Outcome.Conflict, POLICY_GENERATION_MISMATCH))
    else Installed(e, PolicyChanged, f, reply)
  }

  lemma PolicyAnswers(env: Env, e: EngineState, p: Policy)
    ensures PolicyAnswered(env, e, p, Protocol.SetPolicy(env, e, p).0, Protocol.SetPolicy(env, e, p).1)
  {
    hide Install, Installed;
    InstallIsInstalled(e, PolicyCommit(p), PolicyChanged);
  }

  /** Every answer to a topology. */
  ghost predicate TopologyAnswered(env: Env, e: EngineState, t: Topology, f: EngineState, reply: Reply) {
    exists c :: Arranged(t, c) && TopologyAnsweredAs(env, e, c, f, reply)
  }

  ghost predicate TopologyAnsweredAs(env: Env, e: EngineState, c: Topology, f: EngineState, reply: Reply) {
    var current := e.store.d.topology;
    if e.closed then f == e && reply == Failed(Outcome.Closed, SHUTDOWN)
    else if |c.links| > 4096 then f == e && reply == Failed(Outcome.LimitExceeded, LIMIT_EXCEEDED)
    else if !WellDefined(c) then f == e && reply == Failed(Outcome.Invalid, INVALID_ARGUMENT)
    else if c.generation < current.generation then f == e && reply == Failed(Outcome.Stale, TOPOLOGY_GENERATION_MISMATCH)
    else if c.generation == current.generation then
      f == e && reply == (if env.h.topology(c) == env.h.topology(current) then Reply.Done else Failed(Outcome.Conflict, TOPOLOGY_GENERATION_MISMATCH))
    else Installed(e, TopologyChanged, f, reply)
  }

  lemma TopologyAnswers(env: Env, e: EngineState, t: Topology)
    ensures TopologyAnswered(env, e, t, Protocol.SetTopology(env, e, t).0, Protocol.SetTopology(env, e, t).1)
  {
    hide Install, Installed, Canonicalised, TopologyFault, WellDefined, Arranged;
    var c := Canonicalised(t);
    CanonicalIsArranged(t);
    TopologyFaultMeans(c);
    InstallIsInstalled(e, TopologyCommit(c), TopologyChanged);
    assert TopologyAnsweredAs(env, e, c, Protocol.SetTopology(env, e, t).0, Protocol.SetTopology(env, e, t).1);
  }

  // ---- compacting and closing ----

  /** Compaction leaves the durable state on the medium as a snapshot under its own position, or reports that it could not. */
  ghost predicate CheckpointAnswered(e: EngineState, f: EngineState, reply: Reply) {
    if e.closed then f == e && reply == Failed(Outcome.Closed, SHUTDOWN)
    else if reply == Reply.Done then
      && !f.store.failed && f.store.medium.snapshot == Some(e.store.d)
      && f.store.medium.journal == Some(Journal(e.store.d.lastSeq, [Entry(e.store.d.lastSeq + 1, CheckpointMark(e.store.d.lastSeq, e.store.d.recordCount))]))
    else reply == Failed(Outcome.IoError, INTERNAL_ERROR) && f.storeFailed
  }

  lemma CheckpointAnswers(e: EngineState)
    ensures CheckpointAnswered(e, CheckpointCall(e).0, CheckpointCall(e).1)
  {
    hide After;
    var mark := Entry(e.store.d.lastSeq + 1, CheckpointMark(e.store.d.lastSeq, e.store.d.recordCount));
    assert [] + [mark] == [mark];
  }

  /** Closing is final, writes the mark of a clean shutdown, and is answered alike the second time. */
  ghost predicate CloseAnswered(e: EngineState, f: EngineState, reply: Reply) {
    if e.closed then f == e && reply == Reply.Done
    else
      && f.closed && f.epoch == e.epoch && f.incarnation == e.incarnation && f.tick == e.tick && f.book == e.book && f.decisions == e.decisions
      && if reply == Reply.Done then
           && e.store.d.lastSeq < f.store.d.lastSeq
           && (!e.options.enableSnapshot && e.store.medium.journal.Some? ==>
                 f.store.medium.journal.Some?
                 && f.store.medium.journal.value.entries
                    == e.store.medium.journal.value.entries + [Entry(e.store.d.lastSeq + 1, ShutdownMark(e.epoch, e.incarnation, e.store.d.lastSeq))])
         else
           f.store.failed && f.store.d == e.store.d
           && reply == Failed(if !e.store.failed && e.store.d.lastSeq + 1 >= U64_LIMIT then Outcome.Exhausted else Outcome.IoError, INTERNAL_ERROR)
  }

  lemma CloseAnswers(e: EngineState)
    ensures CloseAnswered(e, Close(e).0, Close(e).1)
  {
    hide After;
    CommitMoves(e.store, ShutdownMark(e.epoch, e.incarnation, e.store.d.lastSeq));
    var s := Commit(e.store, ShutdownMark(e.epoch, e.incarnation, e.store.d.lastSeq));
    CheckpointPosition(s);
  }

  lemma CheckpointPosition(s: StoreState)
    ensures Checkpoint(s).0.d.lastSeq >= s.d.lastSeq
  {
    hide Commit;
    if !s.failed && s.fate.snapshot.Kept? {
      CommitMoves(s.(medium := Medium(Some(s.d), Some(Journal(s.d.lastSeq, []))), sinceSnapshot := 0), CheckpointMark(s.d.lastSeq, s.d.recordCount));
    }
  }

  // ---- opening ----

  /** What the options of an opening must be, first fault first. */
  lemma OptionsFaultMeans(o: Options)
    ensures OptionsFault(o)
         == if !ValidPolicy(o.policy) then Some((Outcome.Invalid, POLICY_REJECTED))
            else if |o.topology.links| > 4096 then Some((Outcome.LimitExceeded, LIMIT_EXCEEDED))
            else if !WellDefined(o.topology) then Some((Outcome.Invalid, INVALID_ARGUMENT))
            else if o.fabric == [] then Some((Outcome.Invalid, UNKNOWN_FABRIC))
            else if o.topology.generation == 0 then Some((Outcome.Invalid, INVALID_ARGUMENT))
            else None
  {
    hide TopologyFault, WellDefined;
    TopologyFaultMeans(o.topology);
  }

  /** What a snapshot must be to be restored, first fault first. */
  lemma StartFaultMeans(m: Medium, o: Lineage.StoreOptions)
    ensures StartFault(m, o)
         == if m.snapshot.None? then None
            else if m.snapshot.value.fabric != o.fabric then Some((Outcome.Conflict, UNKNOWN_FABRIC))
            else if !ValidPolicy(m.snapshot.value.policy) then Some((Outcome.Invalid, POLICY_REJECTED))
            else if |m.snapshot.value.topology.links| > 4096 then Some((Outcome.LimitExceeded, LIMIT_EXCEEDED))
            else if !WellDefined(m.snapshot.value.topology) then Some((Outcome.Invalid, INVALID_ARGUMENT))
            else None
  {
    hide TopologyFault, WellDefined;
    if m.snapshot.Some? { TopologyFaultMeans(m.snapshot.value.topology); }
  }

  /**
   * How opening ends: refused for its options or for what the medium holds, out of epochs or boots,
   * or unable to write its boot record or its restart fence; otherwise the engine is open.
   */
  lemma OpenAnswers(o: Options, incarnation: Incarnation, was: StoreState, fate: Fate)
    ensures var opening := OpenEngine(o, incarnation, was, fate);
            var restored := OpenStore(was.medium, StoreOptionsOf(o), fate).0;
            if OptionsFault(o).Some? then opening == NotOpened(was, OptionsFault(o).value.0, OptionsFault(o).value.1)
            else if restored.Barred? then opening == NotOpened(was, restored.outcome, restored.code)
            else if restored.state.epoch + 1 >= U64_LIMIT || restored.state.bootCount + 1 >= U64_LIMIT || restored.state.epochAdvances + 1 >= U64_LIMIT
            then opening.NotOpened? && opening.outcome == Outcome.Exhausted && opening.code == ARITHMETIC_OVERFLOW
            else opening.Opened? || (opening.store.failed && opening.code == INTERNAL_ERROR && opening.outcome in {Outcome.IoError, Outcome.Exhausted})
  {
    hide OpenStore, OptionsFault, FenceRestart, Commit, InFlight;
  }

  /** What a restart makes of an attempt in flight: interrupted, with the reason of how far it had come, and all else as it was. */
  lemma CutMeans(r: AttemptRecord)
    ensures Cut(r) == r.(phase := Phase.Interrupted, reasons := Cut(r).reasons)
    ensures r.phase == Evaluated ==> Appended(r.reasons, Cut(r).reasons, INTERRUPTED_BEFORE_COMMIT, [])
    ensures r.phase == Authorized ==> Appended(r.reasons, Cut(r).reasons, INTERRUPTED_AFTER_COMMIT, [])
    ensures r.phase == Acknowledged || r.phase == Phase.Verified ==> Appended(r.reasons, Cut(r).reasons, INTERRUPTED_AFTER_APPLY, [])
    ensures Terminal(r.phase) <==> r.phase !in {Evaluated, Authorized, Acknowledged, Phase.Verified}
  {}

  lemma {:induction false} FencingCounts(s: StoreState, rest: seq<AttemptRecord>, epoch: nat, incarnation: Incarnation)
    ensures var t := FenceRestart(s, rest, epoch, incarnation);
            && t.d.bootCount == s.d.bootCount && t.d.epochAdvances == s.d.epochAdvances && t.d.epoch == s.d.epoch && t.d.coordinator == s.d.coordinator
            && t.d.policy == s.d.policy && t.d.topology == s.d.topology && t.d.idempotency == s.d.idempotency
    decreases |rest|
  {
    hide Upsert, RetainAttempts, RetainFences, Cut, WithEntry;
    if rest != [] && !s.failed {
      FencingCounts(if Terminal(rest[0].phase) then s else InterruptOne(s, rest[0], epoch, incarnation), rest[1..], epoch, incarnation);
    }
  }

  /**
   * A process starts with nothing but what the medium restored: the next epoch and boot, its own
   * incarnation, a clock at zero, and no decisions, publishers or evidence.
   */
  lemma StartsAnew(o: Options, incarnation: Incarnation, was: StoreState, fate: Fate)
    requires OpenEngine(o, incarnation, was, fate).Opened?
    ensures var e := OpenEngine(o, incarnation, was, fate).e;
            var restored := OpenStore(was.medium, StoreOptionsOf(o), fate).0;
            && restored.Restored?
            && e.options == o && e.incarnation == incarnation && e.tick == 0 && e.decisions == [] && !e.closed && !e.storeFailed && !e.store.failed
            && e.book.publishers == map[] && e.book.failure == map[] && e.book.replacement == map[] && e.book.lastSeq == map[] && e.book.entries == 0
            && e.epoch == restored.state.epoch + 1 && e.store.d.epoch == e.epoch && e.store.d.coordinator == incarnation
            && e.store.d.bootCount == restored.state.bootCount + 1 && e.store.d.epochAdvances == restored.state.epochAdvances + 1
            && e.store.d.policy == restored.state.policy && e.store.d.topology == restored.state.topology
            && e.store.d.idempotency == restored.state.idempotency
  {
    hide FenceRestart, OpenStore, OptionsFault, WithEntry, InFlight;
    var (restored, medium) := OpenStore(was.medium, StoreOptionsOf(o), fate);
    var s := Lineage.StoreState(restored.state, restored.state, medium, false, 0, o.limits.store, fate);
    var booted := Commit(s, BootRecord(s.d, incarnation));
    FencingCounts(booted, booted.d.attempts, s.d.epoch + 1, incarnation);
  }

  // ---- what is kept in passing ----

  /** `kept` are the last elements of `all`, at most `max` of them. */
  predicate LastOf<T(==)>(all: seq<T>, kept: seq<T>, max: nat) {
    && |kept| == (if |all| <= max then |all| else max)
    && forall i :: 0 <= i < |kept| ==> kept[i] == all[|all| - |kept| + i]
  }

  lemma SuffixIsLast<T>(all: seq<T>, max: nat)
    ensures LastOf(all, if |all| > max then all[|all| - max..] else all, max)
  {}

  /** The decisions remembered are the last ones made, in order. */
  lemma LastDecisionsStay(e: EngineState, d: Decision)
    ensures LastOf(e.decisions + [d], Remember(e, d).decisions, e.options.limits.maxDecisions)
    ensures Remember(e, d) == e.(decisions := Remember(e, d).decisions)
  {
    hide LastOf;
    SuffixIsLast(e.decisions + [d], e.options.limits.maxDecisions);
  }

  /** A settled decision compacts the store exactly when snapshots are on and enough records were written since the last one. */
  lemma CompactsExactlyWhen(e: EngineState)
    ensures var due := e.options.enableSnapshot && e.options.snapshotEvery > 0 && e.store.d.recordCount > 0
                       && e.store.sinceSnapshot >= e.options.snapshotEvery;
            MaybeCheckpoint(e) == if due then TakeCheckpoint(e).0 else e
  {}
}
