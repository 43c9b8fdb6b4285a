/** Runs spelled out event by event: what each call does to the state when its writes succeed. */
module Scenario {
  import opened Basics
  import opened ByteBits
  import opened Records
  import opened Lineage
  import opened Table
  import opened Invariant
  import opened Refinement
  import opened StoreSafety
  import opened Protocol
  import opened EngineCalls
  import opened Runs
  import opened Grants
  import opened Outcomes
  import opened Evidence
  import Verdicts
  import Resolution
  import Selector
  import Sorting
  import Payloads
  import RecordCodec
  import Restart
  import Retention
  import Gate
  import TypedCalls
  import TypedRuns
  import TypedStore

  // The names are single letters: f, a, b and, for the publisher, w.

  const FABRIC: Name := [102]
  const LINK := LinkKey(FABRIC, [97])
  const ALTERNATE := LinkKey(FABRIC, [98])

  const POLICY := Policy(1, 0, 0, 1000, 0, false, false, true, false, Unanimous, 9, 1, 1, false, true)

  /** A topology in which the link has this generation. */
  function Defining(generation: nat, of: nat): Topology {
    Topology(generation, [LinkDefinition(LINK, of, 1), LinkDefinition(ALTERNATE, 1, 1)])
  }

  /** The options of a small engine whose attempt table is bounded by `table`, and whose index holds one entry. */
  function Small(table: nat): Options {
    Options(FABRIC, POLICY, Defining(1, 1),
            EngineLimits(Evidence.EvidenceLimits(9, 9), Limits(table, 9, 1), 9, 9, 9), 0, false)
  }

  /** The medium takes every write. */
  const WILLING := Fate(99, false, SnapshotFate.Kept, true)

  const NO_EXPECTATION := Expectation(None, None, None, None, None, None, None)

  function AskUnder(subject: LinkKey, generation: nat, key: Digest): FailoverRequest {
    FailoverRequest(subject, generation, [Resolution.Candidate(if subject == LINK then ALTERNATE else LINK, 0)], NO_EXPECTATION, key)
  }

  /** A request without a key. */
  function Ask(subject: LinkKey, generation: nat): FailoverRequest { AskUnder(subject, generation, ZERO_DIGEST) }

  /** A process is up and well, in a run of the small engine. */
  ghost predicate Well(w: World, table: nat) {
    && w.up && !w.e.closed && !w.e.storeFailed && !w.e.store.failed && w.e.options == Small(table)
    && w.e.store.limits == Small(table).limits.store
    && w.e.store.disk == w.e.store.d
    && w.e.epoch == w.e.store.d.epoch && w.e.incarnation == w.e.store.d.coordinator
    && w.e.store.d.fabric == FABRIC && w.e.store.d.policy == POLICY
    && w.e.store.d.bootCount == w.e.store.d.epochAdvances == w.e.store.d.epoch <= 2
    && TopologyFault(w.e.store.d.topology).None?
  }

  /** How much of the clock and of the lineage's positions is used. */
  predicate Within(w: World, n: nat) { w.e.tick <= n && w.e.store.d.lastSeq <= 9 * n }

  /** One call later: the definitions and the boot are the same, and every pair ever defined is remembered. */
  ghost predicate Moved(w: World, z: World, table: nat) {
    && Well(z, table)
    && z.e.store.d.topology == w.e.store.d.topology && z.e.epoch == w.e.epoch && z.e.incarnation == w.e.incarnation
    && w.e.tick <= z.e.tick <= w.e.tick + 1 && z.e.store.d.lastSeq <= w.e.store.d.lastSeq + 9
    && z.h.used == w.h.used + Pairs(w.e.store.d.topology)
  }

  // ---- evidence ----

  const WATCHER: Name := [119]

  function Boot16(n: byte): Incarnation { seq(16, _ => n) }

  const WATCH := Place(LINK, WATCHER)
  const SPARE := Place(ALTERNATE, WATCHER)

  function DownReport(generation: nat, topology: nat): FailureReport {
    FailureReport(LINK, generation, topology, ObservationState.Down, 9, Stamp(WATCHER, Boot16(9), 1, 1, 0))
  }

  function UpReport(topology: nat): ReplacementReport {
    ReplacementReport(ALTERNATE, 1, topology, ObservationState.Up, 9, 9, 0, true, 1, Stamp(WATCHER, Boot16(9), 1, 1, 0))
  }

  /** The only reports are that the link of this generation is down and that the alternate is up. */
  ghost predicate Evident(e: EngineState, generation: nat, topology: nat) {
    && e.book.failure.Keys == {WATCH} && e.book.replacement.Keys == {SPARE}
    && WATCHER in e.book.publishers && e.book.publishers[WATCHER].incarnation == Boot16(9)
    && e.book.failure[WATCH].report == DownReport(generation, topology) && e.book.replacement[SPARE].report == UpReport(topology)
    && Heard(e.book.failure[WATCH].receipt, e) && Heard(e.book.replacement[SPARE].receipt, e)
  }

  predicate Heard(r: Evidence.Receipt, e: EngineState) { r.coordinator == e.incarnation && r.tick <= e.tick <= 100 }

  // ---- runs under the premise but for one event ----

  /** The standing premise for every event but the one at `spared`. */
  ghost predicate SparedRun(env: Env, w: World, events: seq<Event>, spared: int)
    decreases |events|
  {
    events == [] || ((spared == 0 || Standing(env, w, events[0])) && SparedRun(env, Next(env, w, events[0]), events[1..], spared - 1))
  }

  ghost predicate Leads(env: Env, w: World, events: seq<Event>, spared: int, z: World) {
    SparedRun(env, w, events, spared) && Run(env, w, events) == z
  }

  lemma {:induction false} LeadsOn(env: Env, w: World, events: seq<Event>, spared: int, z: World, ev: Event)
    requires Leads(env, w, events, spared, z) && (|events| == spared || Standing(env, z, ev))
    ensures Leads(env, w, events + [ev], spared, Next(env, z, ev))
    decreases |events|
  {
    hide Standing, Next;
    if events == [] {
      assert events + [ev] == [ev] && [ev][1..] == [];
      assert SparedRun(env, Next(env, z, ev), [], spared - 1);
      assert Run(env, Next(env, z, ev), []) == Next(env, z, ev);
    } else {
      var n := Next(env, w, events[0]);
      LeadsOn(env, n, events[1..], spared - 1, z, ev);
      assert (events + [ev])[1..] == events[1..] + [ev];
    }
  }

  // ---- writes that succeed ----

  /** From `e` to `f` at most `k` records were written, none of which touched the definitions or the boot. */
  ghost predicate Wrote(e: EngineState, f: EngineState, k: nat) {
    && f.options == e.options && f.incarnation == e.incarnation && f.epoch == e.epoch && f.book == e.book && f.tick == e.tick
    && f.closed == e.closed && f.storeFailed == e.storeFailed
    && !f.store.failed && f.store.limits == e.store.limits && f.store.disk == f.store.d
    && f.store.d == e.store.d.(attempts := f.store.d.attempts, fences := f.store.d.fences, idempotency := f.store.d.idempotency,
                               lastSeq := f.store.d.lastSeq, recordCount := f.store.d.recordCount)
    && f.store.d.lastSeq <= e.store.d.lastSeq + k
  }

  lemma WroteOn(e: EngineState, f: EngineState, g: EngineState, k: nat, m: nat)
    requires Wrote(e, f, k) && Wrote(f, g, m)
    ensures Wrote(e, g, k + m)
  {}

  lemma PutWrites(e: EngineState, kind: PutKind, r: AttemptRecord, n: nat)
    requires Works(e.store, n + 1)
    ensures var f := Write(e, AttemptPut(kind, r));
            && Wrote(e, f, 1) && Works(f.store, n) && f.store.d.idempotency == e.store.d.idempotency
            && var table := Upsert(e.store.d.attempts, Stored(kind, r, e.store.d.lastSeq + 1));
               f.store.d.attempts == if kind.Interruption? then table else RetainAttempts(table, e.store.limits.maxAttempts)
  {
    hide Upsert, RetainAttempts;
    CommitWorks(e.store, AttemptPut(kind, r), n);
  }

  lemma NoteWrites(e: EngineState, rec: Record, n: nat)
    requires Works(e.store, n + 1) && (rec.FencePut? || rec.DecisionCommit?)
    ensures var f := Write(e, rec);
            Wrote(e, f, 1) && Works(f.store, n) && f.store.d.attempts == e.store.d.attempts && f.store.d.idempotency == e.store.d.idempotency
  {
    hide RetainFences;
    CommitWorks(e.store, rec, n);
  }

  lemma DecisionWrites(env: Env, e: EngineState, d: Decision, n: nat)
    requires Works(e.store, n + 1)
    ensures var f := CommitDecision(env, e, d).0;
            Wrote(e, f, 1) && Works(f.store, n) && f.store.d.attempts == e.store.d.attempts && f.store.d.idempotency == e.store.d.idempotency
  {
    hide Write;
    NoteWrites(e, DecisionCommit(d), n);
  }

  /** An index of one entry holds the last key that was settled. */
  ghost predicate Indexed(index: seq<IdempotencyEntry>, was: seq<IdempotencyEntry>, key: Digest) {
    if key == ZERO_DIGEST then index == was else |index| == 1 && index[0].key == key
  }

  lemma IndexWrites(e: EngineState, entry: IdempotencyEntry)
    requires Works(e.store, 1) && e.store.limits.maxIdempotency == 1
    ensures var f := Write(e, IdempotencyIndex(entry));
            Wrote(e, f, 1) && f.store.d.attempts == e.store.d.attempts && f.store.d.idempotency == [entry]
  {
    CommitWorks(e.store, IdempotencyIndex(entry), 0);
    var all := e.store.d.idempotency + [entry];
    assert |all| > 1 ==> all[|all| - 1..] == [entry];
  }

  /** A decision under a key whose entry the engine's own index takes, whatever position it gets. */
  ghost predicate Indexable(env: Env, e: EngineState, d: Decision, key: Digest) {
    && TypedCalls.RealEnv(env) && TypedCalls.TypedEngine(e) && TypedStore.TypedDecision(d) && |d.reasons| <= 2 && RecordCodec.IsDigest(key)
  }

  /** Without snapshots, settling writes the decision and, under a key, its index entry. */
  lemma SettlementWrites(env: Env, e: EngineState, d: Decision, key: Digest)
    requires Works(e.store, 2) && !e.options.enableSnapshot && e.store.limits.maxIdempotency == 1
    requires key == ZERO_DIGEST || Indexable(env, e, d, key)
    ensures var f := SettleDurable(env, e, d, key).0;
            Wrote(e, f, 2) && f.store.d.attempts == e.store.d.attempts && Indexed(f.store.d.idempotency, e.store.d.idempotency, key)
  {
    hide CommitDecision, Write, TypedCalls.RealEnv, TypedCalls.TypedEngine, TypedStore.TypedDecision;
    DecisionWrites(env, e, d, 1);
    DecisionStands(env, e, d);
    var (decided, written) := CommitDecision(env, e, d);
    if key != ZERO_DIGEST {
      TypedCalls.ShortIsTaken(env, e, d, key);
      IndexWrites(decided, EntryFor(written, key));
      WroteOn(e, decided, Write(decided, IdempotencyIndex(EntryFor(written, key))), 1, 1);
    }
  }

  lemma DecisionStands(env: Env, e: EngineState, d: Decision)
    requires Works(e.store, 1)
    ensures CommitDecision(env, e, d).1.durable
  {
    hide Commit;
    CommitWorks(e.store, DecisionCommit(d), 0);
  }

  lemma PutSettlementWrites(env: Env, e: EngineState, kind: PutKind, r: AttemptRecord, d: Decision, checkpoints: bool)
    requires Works(e.store, 2) && !e.options.enableSnapshot && !kind.Interruption?
    ensures var f := PutThenSettle(env, e, kind, r, d, checkpoints).0;
            && Wrote(e, f, 2) && f.store.d.idempotency == e.store.d.idempotency
            && f.store.d.attempts == RetainAttempts(Upsert(e.store.d.attempts, Stored(kind, r, e.store.d.lastSeq + 1)), e.store.limits.maxAttempts)
  {
    hide CommitDecision, Write, Upsert, RetainAttempts;
    PutWrites(e, kind, r, 1);
    var put := Write(e, AttemptPut(kind, r));
    DecisionWrites(env, put, d, 0);
    WroteOn(e, put, CommitDecision(env, put, d).0, 1, 1);
  }

  // ---- a request that is declined ----

  lemma DeclineWrites(env: Env, t: EngineState, q: FailoverRequest, d: Decision, digest: Digest)
    requires Works(t.store, 3) && !t.options.enableSnapshot && q.key == ZERO_DIGEST && t.store.limits.maxIdempotency == 1
    requires CountOf(t.store.d.attempts, q.subject, q.generation) < t.store.d.policy.maxAttempts
    ensures var f := Decline(env, t, q, d, digest).0;
            && Wrote(t, f, 3)
            && f.store.d.attempts == RetainAttempts(Upsert(t.store.d.attempts, Stored(Create, DeclinedAttempt(t, q, d, digest), t.store.d.lastSeq + 1)),
                                                    t.store.limits.maxAttempts)
  {
    hide Write, SettleDurable, Upsert, RetainAttempts, CountOf, DeclinedAttempt;
    var r := DeclinedAttempt(t, q, d, digest);
    PutWrites(t, Create, r, 2);
    var put := Write(t, AttemptPut(Create, r));
    SettlementWrites(env, put, d, ZERO_DIGEST);
    WroteOn(t, put, SettleDurable(env, put, d, ZERO_DIGEST).0, 1, 2);
  }

  /** The state a call starts from: the medium willing, the clock advanced. */
  function Ticked(w: World): EngineState {
    Fated(w.e, WILLING).(tick := w.e.tick + 1)
  }

  lemma TickedWorks(w: World, table: nat, n: nat)
    requires Well(w, table) && Within(w, n) && n <= 99
    ensures Works(Ticked(w).store, 9)
  {}

  lemma CallMoves(env: Env, w: World, table: nat, call: Call, f: EngineState, k: nat)
    requires Well(w, table) && Perform(env, Fated(w.e, WILLING), call).0 == f && Wrote(Ticked(w), f, k) && k <= 9
    ensures Next(env, w, Calling(call, WILLING)).e == f
    ensures Moved(w, Next(env, w, Calling(call, WILLING)), table) && f.book == w.e.book
  {
    hide Perform, Pairs, TopologyFault;
  }

  lemma AskIsFine(e: EngineState, subject: LinkKey, generation: nat, key: Digest)
    requires e.options.fabric == FABRIC && e.options.limits.maxCandidates == 9 && e.store.d.policy == POLICY
    requires (subject == LINK || subject == ALTERNATE) && generation != 0
    ensures RequestFault(e, AskUnder(subject, generation, key)).None?
  {
    var cs := AskUnder(subject, generation, key).candidates;
    assert LINK.link[0] != ALTERNATE.link[0];
    assert |cs| == 1 && cs[..0] == [];
    assert CandidateFault(e.options.fabric, subject, [], cs[0]).None?;
    assert CandidatesFault(e.options.fabric, subject, []).None?;
    assert CandidatesFault(e.options.fabric, subject, cs).None?;
  }

  /** Nothing of the pair holds authority and its latest attempt, if any, was not cut off. */
  ghost predicate Free(d: Lineage.DurableState, subject: LinkKey, generation: nat) {
    && ActiveAuthority(d, subject, generation).None?
    && (Latest(d.attempts, subject, generation).Some? ==> !Latest(d.attempts, subject, generation).value.phase.Interrupted?)
  }

  lemma FreeOpens(env: Env, e: EngineState, q: FailoverRequest)
    requires Free(e.store.d, q.subject, q.generation) && q.expected == NO_EXPECTATION && e.store.d.policy == POLICY
    ensures FailoverGate(env, e, q).Open?
  {
    hide ActiveAuthority, Latest, CurrentAuthority;
  }

  /** With no report about the link, a request is declined and leaves one undecided attempt under the next sequence. */
  lemma Declines(env: Env, w: World, table: nat, n: nat, subject: LinkKey, generation: nat) returns (x: AttemptRecord)
    requires Well(w, table) && Within(w, n) && n <= 98 && (subject == LINK || subject == ALTERNATE) && generation != 0
    requires Defines(w.e.store.d.topology, subject, generation) && Free(w.e.store.d, subject, generation)
    requires CountOf(w.e.store.d.attempts, subject, generation) < 9 && Verdicts.Reporters(w.e.book.failure, subject) == {}
    ensures var z := Next(env, w, Calling(Requesting(Ask(subject, generation)), WILLING));
            && Moved(w, z, table) && z.e.book == w.e.book
            && z.e.store.d.attempts == RetainAttempts(Upsert(w.e.store.d.attempts, x), table)
    ensures OfPair(x, subject, generation) && x.seqno == CountOf(w.e.store.d.attempts, subject, generation) + 1
    ensures x.phase == Phase.Indeterminate
  {
    hide CountOf, Upsert, RetainAttempts, FailoverGate, Decline, UnestablishedDecision, Find, Free, RequestFault, Verdicts.Reporters, TopologyFault;
    var t := Ticked(w);
    var q := Ask(subject, generation);
    TickedWorks(w, table, n);
    AskIsFine(t, subject, generation, ZERO_DIGEST);
    FreeOpens(env, t, q);
    Verdicts.NothingReported(t.book, Viewpoint(t), subject, generation);
    var d := UnestablishedDecision(env, t, q, Outcome.Unknown, Reasons.EVIDENCE_MISSING, []);
    DeclineWrites(env, t, q, d, ZERO_DIGEST);
    UndecidedAttempt(env, t, q);
    x := Stored(Create, DeclinedAttempt(t, q, d, ZERO_DIGEST), t.store.d.lastSeq + 1);
    PerformAsk(env, w, q);
    CallMoves(env, w, table, Requesting(q), Decline(env, t, q, d, ZERO_DIGEST).0, 3);
  }

  lemma UndecidedAttempt(env: Env, t: EngineState, q: FailoverRequest)
    ensures var d := UnestablishedDecision(env, t, q, Outcome.Unknown, Reasons.EVIDENCE_MISSING, []);
            var x := DeclinedAttempt(t, q, d, ZERO_DIGEST);
            && OfPair(x, q.subject, q.generation) && x.seqno == CountOf(t.store.d.attempts, q.subject, q.generation) + 1
            && x.phase == Phase.Indeterminate
  {
    hide CountOf;
  }

  lemma PerformAsk(env: Env, w: World, q: FailoverRequest)
    ensures Perform(env, Fated(w.e, WILLING), Requesting(q)) == RequestFailover(env, Fated(w.e, WILLING), q)
  {
    hide RequestFailover;
  }

  // ---- a request that is granted ----

  lemma FailureIsEvident(e: EngineState, generation: nat, topology: nat)
    requires Evident(e, generation, topology) && e.store.d.policy == POLICY && e.store.d.topology.generation == topology
    ensures Verdicts.EvaluateFailure(e.book, Viewpoint(e), LINK, generation).Established?
  {
    hide Verdicts.EvaluateFailure, Boot16;
    var v := Viewpoint(e);
    Verdicts.EstablishedMeans(e.book, v, LINK, generation);
    Verdicts.FailingMeans(e.book, v, LINK, generation, WATCHER);
    assert Verdicts.UseOf(e.book, v, generation, WATCH) == Verdicts.Failing;
    assert Verdicts.Counting(e.book, v, LINK, generation, Verdicts.Healthy) == {};
  }

  lemma SpareIsEligible(e: EngineState, generation: nat, topology: nat, input: Selector.Input)
    requires Evident(e, generation, topology) && e.store.d.policy == POLICY && e.store.d.topology == Defining(topology, generation)
    requires input.subject == LINK && input.policy == POLICY && input.minCapacity == 0
    ensures Selector.Assess(input, Resolution.Resolve(e.book, Viewpoint(e), e.store.d.topology.links, Resolution.Candidate(ALTERNATE, 0))).verdict.Eligible?
  {
    hide Boot16, Selector.Judgement;
    var b, v := e.book, Viewpoint(e);
    assert LINK.link[0] != ALTERNATE.link[0];
    var links := e.store.d.topology.links;
    assert links[1..][0] == links[1] && Find(links, ALTERNATE) == Find(links[1..], ALTERNATE) == Some(links[1]);
    Verdicts.ReportersPlaces(b.replacement, ALTERNATE);
    assert WATCHER in Verdicts.Reporters(b.replacement, ALTERNATE);
    assert Resolution.Admissible(b, v, 1, SPARE);
    Resolution.ChooseAdmissible(b, v, ALTERNATE, 1, Verdicts.Reporters(b.replacement, ALTERNATE), None);
    assert Resolution.ChosenFor(b, v, ALTERNATE, 1) == Some(SPARE);
    assert !Resolution.Conflicted(b, v, ALTERNATE, 1, SPARE);
  }

  lemma OneCandidate(e: EngineState, q: FailoverRequest, link: LinkDefinition)
    requires |q.candidates| == 1 && e.store.d.policy == POLICY
    ensures var input := SelectionInput(e, q, link);
            && input.subject == q.subject && input.policy == POLICY && input.minCapacity == 0
            && input.candidates == [Resolution.Resolve(e.book, Viewpoint(e), e.store.d.topology.links, q.candidates[0])]
  {
    hide Resolution.Resolve;
    var rs := Resolution.ResolveAll(e.book, Viewpoint(e), e.store.d.topology.links, q.candidates);
    assert rs[..0] == [] && rs == [rs[0]];
    assert Sorting.Sort(rs, ResolvedLess) == Sorting.Insert(rs[0], Sorting.Sort([], ResolvedLess), ResolvedLess);
  }

  lemma AskIsGrantable(env: Env, e: EngineState, generation: nat, topology: nat, key: Digest)
    requires e.options.fabric == FABRIC && e.options.limits.maxCandidates == 9 && !e.closed && !e.storeFailed
    requires Evident(e, generation, topology) && e.store.d.policy == POLICY && e.store.d.topology == Defining(topology, generation)
    requires Free(e.store.d, LINK, generation) && CountOf(e.store.d.attempts, LINK, generation) < 9 && generation != 0
    requires FindEntry(e.store.d.idempotency, key).None?
    ensures GrantConditions(env, e, AskUnder(LINK, generation, key))
  {
    hide RequestFault, FailoverGate, CountOf, Free, Evident, Selector.Select, SelectionInput, Verdicts.EvaluateFailure, Resolution.Resolve, Selector.Assess,
      Gate.WellFormed, Gate.Passes, Gate.MalformedAnswer, Gate.TurnsAway;
    var q := AskUnder(LINK, generation, key);
    AskIsFine(e, LINK, generation, key);
    Gate.FormIsChecked(e, q);
    FreeOpens(env, e, q);
    Gate.GateOpensExactlyWhen(env, e, q);
    FailureIsEvident(e, generation, topology);
    var link := Find(e.store.d.topology.links, LINK).value;
    OneCandidate(e, q, link);
    SpareIsEligible(e, generation, topology, SelectionInput(e, q, link));
    Selector.StatusMeans(SelectionInput(e, q, link));
    assert SelectionInput(e, q, link).candidates[0] in SelectionInput(e, q, link).candidates;
  }

  /** The table after a grant of `r`: created, then authorized, with retention after both writes. */
  function Granted(a: seq<AttemptRecord>, x: AttemptRecord, y: AttemptRecord, max: nat): seq<AttemptRecord> {
    RetainAttempts(Upsert(RetainAttempts(Upsert(a, x), max), y), max)
  }

  /** A grant of a well-typed request: under a key, its entry will be taken. */
  ghost predicate GrantIndexable(env: Env, t: EngineState, q: FailoverRequest, d: Decision) {
    && Indexable(env, t, d, q.key) && TypedStore.Named(q.subject) && RecordCodec.Long(q.generation)
    && d.hasReplacement && RecordCodec.ReasonsOk(d.reasons, 2)
  }

  /** Both attempt records of the grant keep its decision indexable. */
  lemma AuthorizedIndexable(env: Env, t: EngineState, q: FailoverRequest, d: Decision)
    requires GrantIndexable(env, t, q, d)
    ensures var staged := Write(t, AttemptPut(Create, GrantedAttempt(t, q, d)));
            Indexable(env, Write(staged, AttemptPut(Update, GrantedAttempt(t, q, d).(phase := Authorized))), d, q.key)
  {
    hide Write, GrantedAttempt, TypedCalls.RealEnv, TypedCalls.TypedEngine, TypedStore.TypedDecision, TypedStore.TypedAttempt, TypedStore.Named,
      RecordCodec.ReasonsOk;
    var r := GrantedAttempt(t, q, d);
    TypedCalls.GrantedTyped(t, q, d);
    TypedCalls.WriteTyped(t, AttemptPut(Create, r));
    TypedCalls.WriteTyped(Write(t, AttemptPut(Create, r)), AttemptPut(Update, r.(phase := Authorized)));
  }

  lemma GrantWrites(env: Env, t: EngineState, q: FailoverRequest, d: Decision) returns (x: AttemptRecord, y: AttemptRecord)
    requires Works(t.store, 4) && !t.options.enableSnapshot && t.store.limits.maxIdempotency == 1
    requires q.key == ZERO_DIGEST || GrantIndexable(env, t, q, d)
    ensures var f := GrantAuthority(env, t, q, d).0;
            Wrote(t, f, 4) && Indexed(f.store.d.idempotency, t.store.d.idempotency, q.key)
            && f.store.d.attempts == Granted(t.store.d.attempts, x, y, t.store.limits.maxAttempts)
    ensures Bare(x) == Bare(GrantedAttempt(t, q, d)) && Bare(y) == Bare(GrantedAttempt(t, q, d).(phase := Authorized))
  {
    hide Write, SettleDurable, Upsert, RetainAttempts, GrantedAttempt, GrantIndexable, Indexable;
    if q.key != ZERO_DIGEST { AuthorizedIndexable(env, t, q, d); }
    var r := GrantedAttempt(t, q, d);
    x := Stored(Create, r, t.store.d.lastSeq + 1);
    PutWrites(t, Create, r, 3);
    var staged := Write(t, AttemptPut(Create, r));
    y := Stored(Update, r.(phase := Authorized), staged.store.d.lastSeq + 1);
    PutWrites(staged, Update, r.(phase := Authorized), 2);
    var authorized := Write(staged, AttemptPut(Update, r.(phase := Authorized)));
    SettlementWrites(env, authorized, d, q.key);
    WroteOn(t, staged, authorized, 1, 1);
    WroteOn(t, authorized, SettleDurable(env, authorized, d, q.key).0, 2, 2);
  }

  /** A granted attempt under the next sequence, bound to the boot. */
  predicate Issued(y: AttemptRecord, e: EngineState, generation: nat, seqno: nat) {
    && OfPair(y, LINK, generation) && y.seqno == seqno && !y.revalidated
    && y.authority.epoch == e.epoch && y.authority.coordinator == e.incarnation
  }

  lemma GrantedIs(env: Env, t: EngineState, q: FailoverRequest, o: Selector.Selection, chosen: Assessment, v: Verdicts.FailureVerdict)
    requires v.Established? && q.subject == LINK
    ensures var r := GrantedAttempt(t, q, GrantDecision(env, t, q, o, chosen, v));
            && Issued(r, t, q.generation, CountOf(t.store.d.attempts, LINK, q.generation) + 1) && r.phase.Evaluated?
            && r.attemptId == env.h.attempt(t.options.fabric, LINK, q.generation, r.seqno)
  {
    hide CountOf, Latest, Listed;
  }

  lemma IssuedReads(r: AttemptRecord, y: AttemptRecord, e: EngineState, generation: nat, seqno: nat)
    requires Issued(r, e, generation, seqno) && Bare(y) == Bare(r)
    ensures Issued(y, e, generation, seqno) && y.phase == r.phase && y.attemptId == r.attemptId
  {
    Restart.BareParts(y, r);
    assert Bare(y).attemptId == y.attemptId && Bare(r).attemptId == r.attemptId;
  }

  /** Both records of a grant are issued under the next sequence. */
  lemma BothAreIssued(env: Env, t: EngineState, q: FailoverRequest, o: Selector.Selection, chosen: Assessment, v: Verdicts.FailureVerdict,
                      x: AttemptRecord, y: AttemptRecord)
    requires v.Established? && q.subject == LINK
    requires var r := GrantedAttempt(t, q, GrantDecision(env, t, q, o, chosen, v)); Bare(x) == Bare(r) && Bare(y) == Bare(r.(phase := Authorized))
    ensures var count := CountOf(t.store.d.attempts, LINK, q.generation);
            && Issued(x, t, q.generation, count + 1) && x.phase.Evaluated?
            && Issued(y, t, q.generation, count + 1) && y.phase.Authorized?
            && y.attemptId == env.h.attempt(t.options.fabric, LINK, q.generation, count + 1)
  {
    hide CountOf, GrantDecision, GrantedAttempt, Bare;
    var n := CountOf(t.store.d.attempts, LINK, q.generation) + 1;
    var r := GrantedAttempt(t, q, GrantDecision(env, t, q, o, chosen, v));
    GrantedIs(env, t, q, o, chosen, v);
    IssuedAuthorized(r, t, q.generation, n);
    IssuedReads(r, x, t, q.generation, n);
    IssuedReads(r.(phase := Authorized), y, t, q.generation, n);
  }

  /** What the granted request is decided by; under a key its entry will be taken. */
  lemma IsDecided(env: Env, e: EngineState, q: FailoverRequest)
    returns (o: Selector.Selection, chosen: Assessment, v: Verdicts.FailureVerdict)
    requires Works(e.store, 2) && GrantConditions(env, e.(tick := e.tick + 1), q) && CountOf(e.store.d.attempts, q.subject, q.generation) < 9
    requires q.key == ZERO_DIGEST || Askable(env, e.(tick := e.tick + 1), q)
    ensures GrantsAnew(RequestFailover(env, e, q).1) && v.Established?
    ensures var t := e.(tick := e.tick + 1);
            var d := GrantDecision(env, t, q, o, chosen, v);
            RequestFailover(env, e, q) == GrantAuthority(env, t, q, d) && (q.key == ZERO_DIGEST || GrantIndexable(env, t, q, d))
  {
    hide RequestFailover, GrantConditions, CountOf, GrantAuthority, GrantDecision, Selector.Select, SelectionInput, Verdicts.EvaluateFailure, GrantsAnew,
      TypedCalls.RealEnv, TypedCalls.TypedEngine, TypedStore.TypedDecision, TypedStore.Named, RecordCodec.LinkOk;
    var t := e.(tick := e.tick + 1);
    GrantsExactlyWhen(env, e, q);
    GrantIsAuthority(env, e, q);
    if q.key != ZERO_DIGEST { TypedCalls.GrantIsTyped(env, t, q); }
    v := Verdicts.EvaluateFailure(t.book, Viewpoint(t), q.subject, q.generation);
    o := Selector.Select(SelectionInput(t, q, Find(t.store.d.topology.links, q.subject).value));
    chosen := o.assessments[o.selectedIndex.value];
  }

  /** A well-typed request to a well-typed engine. */
  ghost predicate Askable(env: Env, t: EngineState, q: FailoverRequest) {
    TypedCalls.RealEnv(env) && TypedCalls.TypedEngine(t) && TypedCalls.TypedRequest(q)
  }

  lemma AskIsTyped(subject: LinkKey, generation: nat, key: Digest)
    requires RecordCodec.IsDigest(key) && (subject == LINK || subject == ALTERNATE)
    ensures TypedCalls.TypedRequest(AskUnder(subject, generation, key)) && AskUnder(subject, generation, key).key == key
  {
    NamesAreValid();
  }

  lemma NamesAreValid()
    ensures TypedStore.Named(LINK) && TypedStore.Named(ALTERNATE) && RecordCodec.ValidName(FABRIC) && RecordCodec.ValidName(WATCHER)
    ensures RecordCodec.LinkOk(LINK) && RecordCodec.LinkOk(ALTERNATE)
  {}

  /** A request under a key is served by a well-typed engine. */
  ghost predicate Keyed(env: Env, w: World, key: Digest) {
    TypedCalls.RealEnv(env) && TypedCalls.TypedEngine(w.e) && RecordCodec.IsDigest(key)
  }

  lemma KeyedIsAskable(env: Env, w: World, table: nat, n: nat, generation: nat, key: Digest)
    requires Keyed(env, w, key) && Well(w, table) && Within(w, n) && n <= 99
    ensures Askable(env, Ticked(w), AskUnder(LINK, generation, key))
  {
    hide TypedCalls.RealEnv, TypedStore.TypedState, TypedStore.TypedMedium, TypedCalls.TypedBook, TopologyFault;
    AskIsTyped(LINK, generation, key);
  }

  /** With the failure and the alternate evident, a request of a free pair is granted. */
  lemma IsGranted(env: Env, w: World, table: nat, n: nat, generation: nat, topology: nat, key: Digest) returns (x: AttemptRecord, y: AttemptRecord)
    requires Well(w, table) && Within(w, n) && n <= 98 && generation != 0
    requires Evident(w.e, generation, topology) && w.e.store.d.topology == Defining(topology, generation) && w.e.tick < 100
    requires Free(w.e.store.d, LINK, generation) && CountOf(w.e.store.d.attempts, LINK, generation) < 9
    requires FindEntry(w.e.store.d.idempotency, key).None? && (key == ZERO_DIGEST || Keyed(env, w, key))
    ensures GrantsAnew(RequestFailover(env, Fated(w.e, WILLING), AskUnder(LINK, generation, key)).1)
    ensures var z := Next(env, w, Calling(Requesting(AskUnder(LINK, generation, key)), WILLING));
            && Moved(w, z, table) && z.e.book == w.e.book && Indexed(z.e.store.d.idempotency, w.e.store.d.idempotency, key)
            && z.e.store.d.attempts == Granted(w.e.store.d.attempts, x, y, table)
    ensures Issued(x, w.e, generation, CountOf(w.e.store.d.attempts, LINK, generation) + 1) && x.phase.Evaluated?
    ensures Issued(y, w.e, generation, CountOf(w.e.store.d.attempts, LINK, generation) + 1) && y.phase.Authorized?
    ensures y.attemptId == env.h.attempt(FABRIC, LINK, generation, CountOf(w.e.store.d.attempts, LINK, generation) + 1)
  {
    hide RequestFailover, GrantConditions, CountOf, Granted, Free, TopologyFault, GrantAuthority, GrantDecision, Selector.Select, SelectionInput,
      Verdicts.EvaluateFailure, Issued, GrantedAttempt, GrantsAnew, Indexed, FindEntry, Keyed, Askable, GrantIndexable, Defining;
    var e := Fated(w.e, WILLING);
    var t := Ticked(w);
    var q := AskUnder(LINK, generation, key);
    TickedWorks(w, table, n);
    AskIsGrantable(env, t, generation, topology, key);
    if key != ZERO_DIGEST { KeyedIsAskable(env, w, table, n, generation, key); }
    var o, chosen, v := IsDecided(env, e, q);
    var d := GrantDecision(env, t, q, o, chosen, v);
    x, y := GrantWrites(env, t, q, d);
    BothAreIssued(env, t, q, o, chosen, v, x, y);
    IssuedHere(x, t, w.e, generation);
    IssuedHere(y, t, w.e, generation);
    PerformAsk(env, w, q);
    CallMoves(env, w, table, Requesting(q), GrantAuthority(env, t, q, d).0, 4);
  }

  lemma IssuedAuthorized(r: AttemptRecord, e: EngineState, generation: nat, seqno: nat)
    requires Issued(r, e, generation, seqno)
    ensures Issued(r.(phase := Authorized), e, generation, seqno)
  {}

  lemma IssuedHere(y: AttemptRecord, t: EngineState, e: EngineState, generation: nat)
    requires t.epoch == e.epoch && t.incarnation == e.incarnation
    ensures forall n: nat :: Issued(y, t, generation, n) == Issued(y, e, generation, n)
  {}

  // ---- reports ----

  /** Both reports, one after the other, on an empty book. */
  function Reports(generation: nat, topology: nat): seq<Event> {
    [Calling(Observing(OfSubject(DownReport(generation, topology))), WILLING), Calling(Observing(OfCandidate(UpReport(topology))), WILLING)]
  }

  /** A call that moves only the clock and the book. */
  ghost predicate Noted(w: World, z: World, table: nat) {
    Moved(w, z, table) && z.e.store.d == w.e.store.d && z.e.tick == w.e.tick + 1
  }

  lemma BootsDiffer()
    ensures Boot16(1) != ZERO_INCARNATION && Boot16(2) != ZERO_INCARNATION && Boot16(9) != ZERO_INCARNATION && Boot16(1) != Boot16(2)
  {
    assert Boot16(1)[0] == 1 && Boot16(2)[0] == 2 && Boot16(9)[0] == 9 && ZERO_INCARNATION[0] == 0;
  }

  lemma DownIsHeard(env: Env, w: World, table: nat, generation: nat, topology: nat)
    requires Well(w, table) && w.e.book == EMPTY_BOOK && generation != 0 && topology != 0
    ensures var z := Next(env, w, Calling(Observing(OfSubject(DownReport(generation, topology))), WILLING));
            && Noted(w, z, table)
            && z.e.book == Book(map[WATCHER := Publisher(Boot16(9), 1, 1, w.e.tick + 1, 1)],
                                map[WATCH := Retained(DownReport(generation, topology), env.h.failure(DownReport(generation, topology)), Receipt(w.e.tick + 1, w.e.epoch, w.e.incarnation))],
                                map[], map[WATCH := 1], 1)
  {
    hide Pairs, TopologyFault, Boot16;
    BootsDiffer();
    var o := OfSubject(DownReport(generation, topology));
    assert ShapeFault(FABRIC, o).None?;
  }

  lemma UpIsHeard(env: Env, w: World, table: nat, generation: nat, topology: nat)
    requires Well(w, table) && topology != 0 && w.e.tick < 99
    requires var b := w.e.book;
             && b.failure.Keys == {WATCH} && b.replacement == map[] && b.lastSeq == map[WATCH := 1] && b.entries == 1
             && WATCHER in b.publishers && b.publishers[WATCHER].incarnation == Boot16(9)
             && b.failure[WATCH].report == DownReport(generation, topology) && Heard(b.failure[WATCH].receipt, w.e)
    ensures var z := Next(env, w, Calling(Observing(OfCandidate(UpReport(topology))), WILLING));
            Noted(w, z, table) && Evident(z.e, generation, topology)
  {
    hide Pairs, TopologyFault, Boot16;
    BootsDiffer();
    var o := OfCandidate(UpReport(topology));
    assert ShapeFault(FABRIC, o).None?;
    assert LINK.link[0] != ALTERNATE.link[0];
    assert SPARE !in w.e.book.lastSeq;
  }

  /** After both reports the failure and the alternate are evident. */
  lemma AreHeard(env: Env, w: World, table: nat, generation: nat, topology: nat) returns (m: World, z: World)
    requires Well(w, table) && w.e.book == EMPTY_BOOK && generation != 0 && topology != 0 && w.e.tick < 98
    ensures m == Next(env, w, Reports(generation, topology)[0]) && z == Next(env, m, Reports(generation, topology)[1])
    ensures Noted(w, m, table) && Noted(m, z, table) && Evident(z.e, generation, topology)
  {
    hide Next, Boot16, TopologyFault;
    m := Next(env, w, Reports(generation, topology)[0]);
    z := Next(env, m, Reports(generation, topology)[1]);
    DownIsHeard(env, w, table, generation, topology);
    UpIsHeard(env, m, table, generation, topology);
  }

  // ---- a definition, while nobody holds authority ----

  lemma {:induction false} NothingToRevoke(e: EngineState, kind: FenceKind, rest: seq<AttemptRecord>)
    requires forall r :: r in rest ==> !HoldsAuthority(r.phase)
    ensures RevokeAll(e, kind, rest) == e
    decreases |rest|
  {
    if rest != [] && !e.store.failed { NothingToRevoke(e, kind, rest[1..]); }
  }

  lemma DefiningIsSound(generation: nat, of: nat)
    requires of != 0
    ensures Canonicalised(Defining(generation, of)) == Defining(generation, of) && TopologyFault(Defining(generation, of)).None?
    ensures Defines(Defining(generation, of), LINK, of) && Defines(Defining(generation, of), ALTERNATE, 1)
  {
    var t := Defining(generation, of);
    var a, b := t.links[0], t.links[1];
    LinkLessStrictTotal(LINK, ALTERNATE);
    assert LINK.link[0] < ALTERNATE.link[0];
    assert LinkLess(LINK, ALTERNATE) && !LinkLess(ALTERNATE, LINK);
    assert t.links[..1] == [a] && [a][..0] == [] && t.links[1..] == [b];
    assert Sorting.Sort([a], DefinitionLess) == [a];
    assert Sorting.Insert(b, [a], DefinitionLess) == [a] + Sorting.Insert(b, [], DefinitionLess) by { assert [a][1..] == []; }
    assert Sorting.Sort(t.links, DefinitionLess) == [a, b];
    assert Find(t.links, ALTERNATE) == Find(t.links[1..], ALTERNATE);
  }

  /** With no holder a new definition is one record. */
  lemma IsDefined(env: Env, w: World, table: nat, n: nat, generation: nat, of: nat)
    requires Well(w, table) && Within(w, n) && n <= 98 && of != 0 && generation > w.e.store.d.topology.generation
    requires forall r :: r in w.e.store.d.attempts ==> !HoldsAuthority(r.phase)
    ensures var z := Next(env, w, Calling(SettingTopology(Defining(generation, of)), WILLING));
            && Well(z, table) && z.e.store.d.topology == Defining(generation, of) && z.e.store.d.attempts == w.e.store.d.attempts
            && z.e.epoch == w.e.epoch && z.e.incarnation == w.e.incarnation && z.e.book == w.e.book && z.e.tick == w.e.tick
            && z.e.store.d.lastSeq == w.e.store.d.lastSeq + 1
            && z.h.used == w.h.used + Pairs(Defining(generation, of))
  {
    hide Commit, RevokeAll, Canonicalised, Pairs, TopologyFault, Defining;
    DefiningIsSound(generation, of);
    var e := Fated(w.e, WILLING);
    CommitWorks(e.store, TopologyCommit(Defining(generation, of)), 0);
    var installed := Write(e, TopologyCommit(Defining(generation, of)));
    NothingToRevoke(installed, TopologyChanged, installed.store.d.attempts);
    assert Defining(generation, of).generation == generation by { DefiningGeneration(generation, of); }
  }

  lemma DefiningGeneration(generation: nat, of: nat)
    ensures Defining(generation, of).generation == generation
  {}

  // ---- what is applied, and what is resolved ----

  /** The applier accepts: without a required verification the attempt is committed. */
  lemma IsApplied(env: Env, w: World, table: nat, n: nat, r: AttemptRecord) returns (y: AttemptRecord)
    requires Well(w, table) && Within(w, n) && n <= 98
    requires Lookup(w.e.store.d.attempts, r.subject, r.seqno) == Some(r) && r.phase.Authorized?
    ensures var z := Next(env, w, Calling(Applying(ApplicationReport(r.subject, r.generation, r.seqno, r.attemptId, Boot16(9), true, [])), WILLING));
            && Moved(w, z, table) && z.e.book == w.e.book
            && z.e.store.d.attempts == RetainAttempts(Upsert(w.e.store.d.attempts, y), table)
    ensures SameKey(y, r) && SamePair(y, r) && y.authority == r.authority && y.phase.Committed?
  {
    hide Upsert, RetainAttempts, PutThenSettle, Conclude, DecisionAbout, Boot16, TopologyFault, Lookup;
    BootsDiffer();
    var t := Ticked(w);
    var report := ApplicationReport(r.subject, r.generation, r.seqno, r.attemptId, Boot16(9), true, []);
    var plan := PlanApplication(t, report);
    TickedWorks(w, table, n);
    PutSettlementWrites(env, t, Completion, plan.attempt, plan.decision, true);
    y := Stored(Completion, plan.attempt, t.store.d.lastSeq + 1);
    CallMoves(env, w, table, Applying(report), PutThenSettle(env, t, Completion, plan.attempt, plan.decision, true).0, 2);
  }

  /** An interrupted attempt is found to have been applied: it is committed again, bound to this boot. */
  lemma IsResolved(env: Env, w: World, table: nat, n: nat, r: AttemptRecord) returns (y: AttemptRecord)
    requires Well(w, table) && Within(w, n) && n <= 98
    requires Lookup(w.e.store.d.attempts, r.subject, r.seqno) == Some(r) && r.phase.Interrupted? && !r.revalidated
    ensures var z := Next(env, w, Calling(Resolving(RevalidationRequest(r.subject, r.generation, r.seqno, Applied, Boot16(9), w.e.epoch)), WILLING));
            && Moved(w, z, table)
            && z.e.store.d.attempts == RetainAttempts(Upsert(w.e.store.d.attempts, y), table)
    ensures SameKey(y, r) && SamePair(y, r) && y.phase.Committed? && y.authority.epoch == w.e.epoch && y.authority.coordinator == w.e.incarnation
  {
    hide Upsert, RetainAttempts, PutThenSettle, RevalidationDecision, DecisionAbout, Boot16, TopologyFault, Lookup;
    BootsDiffer();
    var t := Ticked(w);
    var q := RevalidationRequest(r.subject, r.generation, r.seqno, Applied, Boot16(9), w.e.epoch);
    var plan := PlanResolution(env, t, q);
    TickedWorks(w, table, n);
    PutSettlementWrites(env, t, Completion, plan.attempt, plan.decision, false);
    y := Stored(Completion, plan.attempt, t.store.d.lastSeq + 1);
    CallMoves(env, w, table, Resolving(q), PutThenSettle(env, t, Completion, plan.attempt, plan.decision, false).0, 2);
  }

  /** An interrupted attempt is found not to have been applied. */
  lemma IsCleared(env: Env, w: World, table: nat, n: nat, r: AttemptRecord) returns (y: AttemptRecord)
    requires Well(w, table) && Within(w, n) && n <= 98
    requires Lookup(w.e.store.d.attempts, r.subject, r.seqno) == Some(r) && r.phase.Interrupted? && !r.revalidated
    ensures var z := Next(env, w, Calling(Resolving(RevalidationRequest(r.subject, r.generation, r.seqno, NotApplied, Boot16(9), w.e.epoch)), WILLING));
            && Moved(w, z, table) && z.e.book == w.e.book && z.e.store.d.idempotency == w.e.store.d.idempotency
            && z.e.store.d.attempts == RetainAttempts(Upsert(w.e.store.d.attempts, y), table)
    ensures SameKey(y, r) && SamePair(y, r) && y.phase.Aborted?
  {
    hide Upsert, RetainAttempts, PutThenSettle, RevalidationDecision, DecisionAbout, Boot16, TopologyFault, Lookup;
    BootsDiffer();
    var t := Ticked(w);
    var q := RevalidationRequest(r.subject, r.generation, r.seqno, NotApplied, Boot16(9), w.e.epoch);
    var plan := PlanResolution(env, t, q);
    TickedWorks(w, table, n);
    PutSettlementWrites(env, t, Update, plan.attempt, plan.decision, false);
    y := Stored(Update, plan.attempt, t.store.d.lastSeq + 1);
    CallMoves(env, w, table, Resolving(q), PutThenSettle(env, t, Update, plan.attempt, plan.decision, false).0, 2);
  }

  lemma RevertWrites(env: Env, e: EngineState, was: AttemptRecord, r: AttemptRecord, d: Decision, key: Digest)
    requires Works(e.store, 4) && e.store.limits.maxIdempotency == 1 && key != ZERO_DIGEST
    requires Indexable(env, e, d, key) && TypedStore.TypedAttempt(was) && TypedStore.TypedAttempt(r)
    ensures var f := RevertAuthority(env, e, was, r, d, key).0;
            && Wrote(e, f, 4) && Indexed(f.store.d.idempotency, e.store.d.idempotency, key)
            && f.store.d.attempts == RetainAttempts(Upsert(e.store.d.attempts, Stored(PutKind.Rollback, r, e.store.d.lastSeq + 1)), e.store.limits.maxAttempts)
  {
    hide CommitDecision, Write, Upsert, RetainAttempts, Indexable;
    PutWrites(e, PutKind.Rollback, r, 3);
    var put := Write(e, AttemptPut(PutKind.Rollback, r));
    var fence := Protocol.Fence(e, RollbackRevoked, was);
    NoteWrites(put, fence, 2);
    var fenced := Write(put, fence);
    FencedIndexable(env, e, was, r, d, key);
    DecisionWrites(env, fenced, d, 1);
    DecisionStands(env, fenced, d);
    var (decided, written) := CommitDecision(env, fenced, d);
    IndexWrites(decided, EntryFor(written, key));
    WroteOn(e, put, fenced, 1, 1);
    WroteOn(e, fenced, decided, 2, 1);
    WroteOn(e, decided, Write(decided, IdempotencyIndex(EntryFor(written, key))), 3, 1);
  }

  lemma FencedIndexable(env: Env, e: EngineState, was: AttemptRecord, r: AttemptRecord, d: Decision, key: Digest)
    requires Indexable(env, e, d, key) && TypedStore.TypedAttempt(was) && TypedStore.TypedAttempt(r)
    ensures var fenced := Write(Write(e, AttemptPut(PutKind.Rollback, r)), Protocol.Fence(e, RollbackRevoked, was));
            var written := CommitDecision(env, fenced, d).1;
            written.durable ==> env.fits(EntryFor(written, key))
  {
    hide Write, CommitDecision, TypedCalls.RealEnv, TypedCalls.TypedEngine, TypedStore.TypedDecision, TypedStore.TypedAttempt, RecordCodec.FenceOk;
    var put := Write(e, AttemptPut(PutKind.Rollback, r));
    TypedCalls.WriteTyped(e, AttemptPut(PutKind.Rollback, r));
    TypedCalls.FenceRecordTyped(e, RollbackRevoked, was);
    TypedCalls.WriteTyped(put, Protocol.Fence(e, RollbackRevoked, was));
    TypedCalls.ShortIsTaken(env, Write(put, Protocol.Fence(e, RollbackRevoked, was)), d, key);
  }

  function Revoke(r: AttemptRecord, key: Digest): RollbackRequest {
    RollbackRequest(r.subject, r.generation, r.seqno, NO_EXPECTATION, key, [])
  }

  /** An attempt that holds authority is rolled back. */
  lemma IsRevoked(env: Env, w: World, table: nat, n: nat, r: AttemptRecord, key: Digest) returns (y: AttemptRecord)
    requires Well(w, table) && Within(w, n) && n <= 98 && key != ZERO_DIGEST && Keyed(env, w, key)
    requires Lookup(w.e.store.d.attempts, r.subject, r.seqno) == Some(r) && HoldsAuthority(r.phase)
    requires FindEntry(w.e.store.d.idempotency, key).None?
    ensures var z := Next(env, w, Calling(RollingBack(Revoke(r, key)), WILLING));
            && Moved(w, z, table) && z.e.book == w.e.book && Indexed(z.e.store.d.idempotency, w.e.store.d.idempotency, key)
            && z.e.store.d.attempts == RetainAttempts(Upsert(w.e.store.d.attempts, y), table)
    ensures SameKey(y, r) && SamePair(y, r) && y.phase.RolledBack?
  {
    hide Upsert, RetainAttempts, RevertAuthority, Conclude, DecisionAbout, TopologyFault, Lookup, FindEntry, CurrentAuthority, Indexed, Keyed, Indexable,
      TypedStore.TypedAttempt;
    var t := Ticked(w);
    var plan := PlanRollback(env, t, Revoke(r, key));
    RevocationIndexable(env, w, table, n, r, key);
    TickedWorks(w, table, n);
    RevertWrites(env, t, plan.was, plan.attempt, plan.decision, key);
    y := Stored(PutKind.Rollback, plan.attempt, t.store.d.lastSeq + 1);
    CallMoves(env, w, table, RollingBack(Revoke(r, key)), RevertAuthority(env, t, plan.was, plan.attempt, plan.decision, key).0, 4);
  }

  lemma RevocationIndexable(env: Env, w: World, table: nat, n: nat, r: AttemptRecord, key: Digest)
    requires Keyed(env, w, key) && Well(w, table) && Within(w, n) && n <= 99 && PlanRollback(env, Ticked(w), Revoke(r, key)).Revert?
    ensures var plan := PlanRollback(env, Ticked(w), Revoke(r, key));
            Indexable(env, Ticked(w), plan.decision, key) && TypedStore.TypedAttempt(plan.was) && TypedStore.TypedAttempt(plan.attempt)
  {
    hide PlanRollback, TypedCalls.RealEnv, TypedStore.TypedState, TypedStore.TypedMedium, TypedCalls.TypedBook, TopologyFault, TypedStore.TypedDecision,
      TypedStore.TypedAttempt;
    TypedCalls.RollbackTyped(env, Ticked(w), Revoke(r, key));
  }

  // ---- every event of these runs has its arguments in their ranges ----

  lemma ReportsAreTyped(generation: nat, topology: nat)
    ensures TypedCalls.TypedCall(Observing(OfSubject(DownReport(generation, topology))))
    ensures TypedCalls.TypedCall(Observing(OfCandidate(UpReport(topology))))
  {
    hide RecordCodec.ValidName;
    NamesAreValid();
  }

  lemma DefiningIsTyped(generation: nat, of: nat)
    requires RecordCodec.Long(generation) && RecordCodec.Long(of)
    ensures TypedCalls.TypedCall(SettingTopology(Defining(generation, of))) && RecordCodec.TopologyOk(Defining(generation, of))
  {
    hide RecordCodec.LinkOk;
    NamesAreValid();
  }

  lemma LaunchIsTyped(table: nat, n: byte)
    ensures TypedRuns.TypedArguments(Launch(table, n))
  {
    hide RecordCodec.TopologyOk, RecordCodec.ValidName, Defining;
    NamesAreValid();
    DefiningIsTyped(1, 1);
  }

  // ---- opening, compaction and a crash ----

  function Launch(table: nat, n: byte): Event { Reopening(Small(table), Boot16(n), WILLING) }

  lemma SmallIsValid(table: nat)
    ensures OptionsFault(Small(table)).None?
  {
    DefiningIsSound(1, 1);
  }

  /** The first process, on an empty medium. */
  lemma Opens(env: Env, table: nat) returns (z: World)
    ensures z == Next(env, Virgin(Small(table)), Launch(table, 1)) && Standing(env, Virgin(Small(table)), Launch(table, 1))
    ensures Well(z, table) && z.e.store.d.attempts == [] && z.e.store.d.idempotency == [] && z.e.store.d.topology == Defining(1, 1) && z.e.book == EMPTY_BOOK
    ensures z.e.epoch == 1 && z.e.incarnation == Boot16(1) && z.e.tick == 0 && z.e.store.d.lastSeq == 1
    ensures z.h.used == Pairs(Defining(1, 1))
  {
    hide Pairs, TopologyFault, Defining, Boot16, OptionsFault, WithEntry;
    SmallIsValid(table);
    DefiningIsSound(1, 1);
    var w := Virgin(Small(table));
    var o := Small(table);
    z := Next(env, w, Launch(table, 1));
    var so := StoreOptionsOf(o);
    assert OpenStore(EMPTY_MEDIUM, so, WILLING).0 == Restored(Blank(so));
    var m := OpenStore(EMPTY_MEDIUM, so, WILLING).1;
    var s := Lineage.StoreState(Blank(so), Blank(so), m, false, 0, o.limits.store, WILLING);
    CommitWorks(s, BootRecord(Blank(so), Boot16(1)), 0);
    assert w.h.used + Pairs(Defining(1, 1)) == Pairs(Defining(1, 1));
  }

  /** The medium is a snapshot of `d` and a journal that holds the mark alone. */
  predicate Compacted(m: Medium, d: Lineage.DurableState) {
    m == Medium(Some(d), Some(Journal(d.lastSeq, [Entry(d.lastSeq + 1, CheckpointMark(d.lastSeq, d.recordCount))])))
  }

  lemma MarkStands(s: StoreState)
    requires Works(s, 1) && s.fate.snapshot.Kept?
    ensures Lineage.Checkpoint(s).1 && Compacted(Lineage.Checkpoint(s).0.medium, s.d)
  {
    var mark := Entry(s.d.lastSeq + 1, CheckpointMark(s.d.lastSeq, s.d.recordCount));
    assert [] + [mark] == [mark];
  }

  lemma IsCompacted(env: Env, w: World, table: nat, n: nat)
    requires Well(w, table) && Within(w, n) && n <= 98
    ensures var z := Next(env, w, Calling(Checkpointing, WILLING));
            && Moved(w, z, table) && z.e.book == w.e.book && z.e.store.d.attempts == w.e.store.d.attempts
            && z.e.store.d.idempotency == w.e.store.d.idempotency && Compacted(z.e.store.medium, w.e.store.d)
  {
    hide Pairs, TopologyFault, Compacted;
    MarkStands(Fated(w.e, WILLING).store);
  }

  lemma RestoresTheSnapshot(m: Medium, d: Lineage.DurableState, o: Lineage.StoreOptions)
    requires Compacted(m, d) && d.fabric == o.fabric && ValidPolicy(d.policy) && TopologyFault(d.topology).None?
    ensures OpenStore(m, o, WILLING) == (Restored(d.(lastSeq := d.lastSeq + 1)), m)
  {
    hide TopologyFault, ValidPolicy;
    var j := m.journal.value;
    assert j.entries[..0] == [];
    assert Replay(d, d.lastSeq, j.base, [], o.limits) == Some(d);
    assert Replay(d, d.lastSeq, j.base, j.entries, o.limits) == Some(d);
  }

  lemma {:induction false} TerminalsSkipped(s: StoreState, a: seq<AttemptRecord>, rest: seq<AttemptRecord>, epoch: nat, incarnation: Incarnation)
    requires forall r :: r in a ==> Terminal(r.phase)
    ensures FenceRestart(s, a + rest, epoch, incarnation) == FenceRestart(s, rest, epoch, incarnation)
    decreases |a|
  {
    hide InterruptOne;
    if a == [] {
      assert a + rest == rest;
    } else {
      assert (a + rest)[1..] == a[1..] + rest;
      TerminalsSkipped(s, a[1..], rest, epoch, incarnation);
    }
  }

  lemma OneIsCut(s: StoreState, a: seq<AttemptRecord>, r: AttemptRecord, b: seq<AttemptRecord>, epoch: nat, incarnation: Incarnation)
    requires (forall x :: x in a + b ==> Terminal(x.phase)) && !Terminal(r.phase) && Works(s, 2)
    ensures var t := FenceRestart(s, a + [r] + b, epoch, incarnation);
            && !t.failed && t.disk == t.d && t.limits == s.limits && t.d.lastSeq == s.d.lastSeq + 2
            && t.d.attempts == Upsert(s.d.attempts, Stored(Interruption, Cut(r), s.d.lastSeq + 1))
            && t.d == s.d.(attempts := t.d.attempts, fences := t.d.fences, lastSeq := t.d.lastSeq, recordCount := t.d.recordCount)
  {
    hide Commit, Cut, Upsert, RetainFences, FenceRestart;
    CommitWorks(s, AttemptPut(Interruption, Cut(r)), 1);
    var put := Commit(s, AttemptPut(Interruption, Cut(r)));
    var fence := FencePut(FenceRecord(PreRestartAuthority, r.subject, r.generation, r.seqno, epoch, incarnation, 0, []));
    CommitWorks(put, fence, 0);
    assert a + [r] + b == a + ([r] + b);
    TerminalsSkipped(s, a, [r] + b, epoch, incarnation);
    var one := InterruptOne(s, r, epoch, incarnation);
    assert ([r] + b)[1..] == b && b + [] == b;
    assert FenceRestart(s, [r] + b, epoch, incarnation) == FenceRestart(one, b, epoch, incarnation) by { CutsTheHead(s, [r] + b, epoch, incarnation); }
    TerminalsSkipped(one, b, [], epoch, incarnation);
    assert FenceRestart(one, [], epoch, incarnation) == one by { NothingToCut(one, epoch, incarnation); }
  }

  lemma CutsTheHead(s: StoreState, rest: seq<AttemptRecord>, epoch: nat, incarnation: Incarnation)
    requires rest != [] && !s.failed && !Terminal(rest[0].phase)
    ensures FenceRestart(s, rest, epoch, incarnation) == FenceRestart(InterruptOne(s, rest[0], epoch, incarnation), rest[1..], epoch, incarnation)
  {
    hide InterruptOne;
  }

  lemma NothingToCut(s: StoreState, epoch: nat, incarnation: Incarnation)
    ensures FenceRestart(s, [], epoch, incarnation) == s
  {}

  /** After a compaction the process dies, and the next one interrupts the one attempt that was in flight. */
  lemma Reopens(env: Env, w: World, table: nat, n: nat, d: Lineage.DurableState, a: seq<AttemptRecord>, r: AttemptRecord, b: seq<AttemptRecord>)
    returns (z: World, y: AttemptRecord)
    requires Well(w, table) && Within(w, n) && n <= 90 && Compacted(w.e.store.medium, d) && |w.e.store.d.attempts| <= table
    requires d.fabric == FABRIC && d.policy == POLICY && d.topology == w.e.store.d.topology
    requires d.lastSeq <= 9 * n && d.bootCount == d.epochAdvances == d.epoch == w.e.epoch <= 1
    requires d.attempts == a + [r] + b && (forall x :: x in a + b ==> Terminal(x.phase)) && !Terminal(r.phase)
    ensures z == Next(env, w, Launch(table, 2)) && Standing(env, w, Launch(table, 2))
    ensures Well(z, table) && z.e.store.d.topology == w.e.store.d.topology && z.e.book == EMPTY_BOOK
    ensures z.e.epoch == w.e.epoch + 1 && z.e.incarnation == Boot16(2) && z.e.tick == 0 && z.e.store.d.lastSeq <= d.lastSeq + 9
    ensures z.e.store.d.attempts == Upsert(d.attempts, y) && SameKey(y, r) && SamePair(y, r) && y.phase.Interrupted? && y.revalidated == r.revalidated
    ensures z.h.used == w.h.used + Pairs(w.e.store.d.topology)
  {
    hide Pairs, TopologyFault, Boot16, OptionsFault, WithEntry, OpenStore, FenceRestart, Cut, Upsert;
    var o := Small(table);
    SmallIsValid(table);
    RestoresTheSnapshot(w.e.store.medium, d, StoreOptionsOf(o));
    var x := d.(lastSeq := d.lastSeq + 1);
    var s := Lineage.StoreState(x, x, w.e.store.medium, false, 0, o.limits.store, WILLING);
    CommitWorks(s, BootRecord(x, Boot16(2)), 2);
    var booted := Commit(s, BootRecord(x, Boot16(2)));
    OneIsCut(booted, a, r, b, x.epoch + 1, Boot16(2));
    y := Stored(Interruption, Cut(r), booted.d.lastSeq + 1);
    CutIs(r);
    z := Next(env, w, Launch(table, 2));
  }

  lemma CutIs(r: AttemptRecord)
    ensures SameKey(Cut(r), r) && SamePair(Cut(r), r) && Cut(r).phase.Interrupted? && Cut(r).revalidated == r.revalidated
  {}

  // ---- a grant whose index entry is lost ----

  /** The medium takes three more records, and none after. */
  const SHORT := Fate(3, false, SnapshotFate.Kept, true)

  /** Nothing on the medium bars a reopening. */
  ghost predicate Openable(m: Medium) {
    m.snapshot.Some? && m.journal.Some? && FenceFree(m) && Covered(m) <= BaseOf(m)
  }

  lemma CommitStaysOpenable(s: StoreState, rec: Record)
    requires Openable(s.medium) && !rec.FencePut?
    ensures Openable(Commit(s, rec).medium) && Commit(s, rec).medium.snapshot == s.medium.snapshot
  {
    var e := Entry(s.d.lastSeq + 1, rec);
    AppendedEntries(s.medium, e);
    hide After;
    forall x | x in EntriesOf(WithEntry(s.medium, e)) && Uncovered(WithEntry(s.medium, e), x) ensures !x.record.FencePut? {
      assert x in EntriesOf(s.medium) || x == e;
    }
  }

  lemma CompactedIsOpenable(m: Medium, d: Lineage.DurableState)
    requires Compacted(m, d)
    ensures Openable(m)
  {}

  /** With room for three records the attempt is authorized and decided, but its key never reaches the index. */
  lemma GrantUnindexed(env: Env, t: EngineState, q: FailoverRequest, d: Decision) returns (x: AttemptRecord, y: AttemptRecord)
    requires Works(t.store, 3) && t.store.fate == SHORT && !t.options.enableSnapshot && t.store.d == t.store.disk && Openable(t.store.medium)
    requires q.key != ZERO_DIGEST && GrantIndexable(env, t, q, d)
    ensures var (f, reply) := GrantAuthority(env, t, q, d);
            && f.store.failed && f.storeFailed && f.store.disk == f.store.d && f.store.limits == t.store.limits && Openable(f.store.medium)
            && f.store.medium.snapshot == t.store.medium.snapshot
            && f.store.d == t.store.d.(attempts := f.store.d.attempts, fences := f.store.d.fences, lastSeq := f.store.d.lastSeq, recordCount := f.store.d.recordCount)
            && f.store.d.lastSeq <= t.store.d.lastSeq + 3
            && f.store.d.attempts == Granted(t.store.d.attempts, x, y, t.store.limits.maxAttempts)
    ensures Bare(x) == Bare(GrantedAttempt(t, q, d)) && Bare(y) == Bare(GrantedAttempt(t, q, d).(phase := Authorized))
  {
    hide Commit, Upsert, RetainAttempts, GrantedAttempt, Openable, GrantIndexable, TypedCalls.RealEnv, TypedCalls.TypedEngine, TypedStore.TypedDecision;
    AuthorizedIndexable(env, t, q, d);
    var r := GrantedAttempt(t, q, d);
    x := Stored(Create, r, t.store.d.lastSeq + 1);
    var a := r.(phase := Authorized);
    var s1 := Commit(t.store, AttemptPut(Create, r));
    y := Stored(Update, a, s1.d.lastSeq + 1);
    var s2 := Commit(s1, AttemptPut(Update, a));
    var s3 := Commit(s2, DecisionCommit(d));
    CommitWorks(t.store, AttemptPut(Create, r), 2);
    CommitWorks(s1, AttemptPut(Update, a), 1);
    CommitWorks(s2, DecisionCommit(d), 0);
    CommitStaysOpenable(t.store, AttemptPut(Create, r));
    CommitStaysOpenable(s1, AttemptPut(Update, a));
    CommitStaysOpenable(s2, DecisionCommit(d));
    PutShape(t.store, Create, r);
    PutShape(s1, Update, a);
    NoteShape(s2, d);
    var staged := Write(t, AttemptPut(Create, r));
    var authorized := Write(staged, AttemptPut(Update, a));
    var (decided, written) := CommitDecision(env, authorized, d);
    TypedCalls.ShortIsTaken(env, authorized, d, q.key);
    CommitRefused(s3, IdempotencyIndex(EntryFor(written, q.key)));
  }

  lemma CommitRefused(s: StoreState, rec: Record)
    requires s.fate.room == 0 && !s.fate.lands
    ensures Commit(s, rec) == s.(failed := true)
  {}

  lemma PutShape(s: StoreState, kind: PutKind, r: AttemptRecord)
    requires Works(s, 1) && !kind.Interruption?
    ensures var d := After(s.d, AttemptPut(kind, r), s.limits);
            && d == s.d.(attempts := d.attempts, lastSeq := s.d.lastSeq + 1, recordCount := d.recordCount)
            && d.attempts == RetainAttempts(Upsert(s.d.attempts, Stored(kind, r, s.d.lastSeq + 1)), s.limits.maxAttempts)
  {
    hide Upsert, RetainAttempts;
  }

  lemma NoteShape(s: StoreState, d: Decision)
    ensures var f := After(s.d, DecisionCommit(d), s.limits); f == s.d.(lastSeq := s.d.lastSeq + 1, recordCount := f.recordCount)
  {}
}
