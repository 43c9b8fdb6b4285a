/** What the index forgets can be granted again: a session that keeps every premise of one grant per key but the room. */
module Eviction {
  import opened Basics
  import opened ByteBits
  import opened Records
  import opened Lineage
  import opened Table
  import opened Invariant
  import opened Protocol
  import opened Runs
  import opened Grants
  import opened Idempotency
  import opened Scenario
  import RecordCodec
  import opened TypedCalls
  import Evidence
  import Premise
  import TypedRuns

  function Key(n: byte): Digest { seq(32, _ => n) }

  lemma KeysDiffer()
    ensures Key(1) != ZERO_DIGEST && Key(2) != ZERO_DIGEST && Key(1) != Key(2)
    ensures RecordCodec.IsDigest(Key(1)) && RecordCodec.IsDigest(Key(2))
  {
    assert Key(1)[0] == 1 && Key(2)[0] == 2 && ZERO_DIGEST[0] == 0;
  }

  /** One more call of a session. */
  lemma ConverseOn(env: Env, e: EngineState, calls: seq<(Call, Fate)>, w: World, call: Call)
    requires w.up && Converse(env, e, calls).e == w.e
    ensures var s := Converse(env, e, calls + [(call, WILLING)]);
            && s.e == Next(env, w, Calling(call, WILLING)).e
            && s.granted == if call.Requesting? && call.request.key != ZERO_DIGEST && GrantsAnew(Perform(env, Fated(w.e, WILLING), call).1)
                            then Converse(env, e, calls).granted + [call.request.key] else Converse(env, e, calls).granted
  {
    hide Perform, GrantsAnew;
    assert (calls + [(call, WILLING)])[..|calls|] == calls;
  }

  lemma NothingSaid(env: Env, e: EngineState)
    ensures Converse(env, e, []) == Session(e, [])
  {}

  lemma LastIsFound(index: seq<IdempotencyEntry>, key: Digest, other: Digest)
    requires |index| == 1 && index[0].key == other && other != key
    ensures FindEntry(index, key).None?
  {}

  // ---- values in their ranges ----

  /** Every call has its arguments in their ranges. */
  predicate Spoken(calls: seq<(Call, Fate)>) {
    forall i :: 0 <= i < |calls| ==> TypedCall(calls[i].0) && (calls[i].0.Requesting? ==> RecordCodec.LinkOk(calls[i].0.request.subject))
  }

  lemma SpokenOn(calls: seq<(Call, Fate)>, call: Call)
    requires Spoken(calls) && TypedCall(call) && (call.Requesting? ==> RecordCodec.LinkOk(call.request.subject))
    ensures Spoken(calls + [(call, WILLING)])
  {
    hide TypedCall, RecordCodec.LinkOk;
  }

  /** So the engine that the session has led to serves keyed requests. */
  lemma KeyedHere(env: Env, e: EngineState, calls: seq<(Call, Fate)>, w: World, key: Digest)
    requires RealEnv(env) && TypedEngine(e) && e.tick == 0 && Spoken(calls) && |calls| <= 9
    requires Converse(env, e, calls).e == w.e && RecordCodec.IsDigest(key)
    ensures Keyed(env, w, key)
  {
    hide RealEnv, TypedEngine, TypedCall, Converse, RecordCodec.LinkOk;
    assert calls[..|calls|] == calls;
    TypedRuns.SessionTyped(env, e, calls, |calls|);
  }

  lemma AskIsSpoken(calls: seq<(Call, Fate)>, key: Digest)
    requires Spoken(calls) && RecordCodec.IsDigest(key)
    ensures Spoken(calls + [(Requesting(AskUnder(LINK, 1, key)), WILLING)])
  {
    hide Spoken, TypedRequest, RecordCodec.LinkOk;
    AskIsTyped(LINK, 1, key);
    NamesAreValid();
    SpokenOn(calls, Requesting(AskUnder(LINK, 1, key)));
  }

  /** The two reports. */
  function BothReports(): seq<(Call, Fate)> {
    [(Observing(Evidence.OfSubject(DownReport(1, 1))), WILLING)] + [(Observing(Evidence.OfCandidate(UpReport(1))), WILLING)]
  }

  lemma ReportsAreSpoken()
    ensures Spoken(BothReports())
  {
    hide TypedCall, RecordCodec.LinkOk;
    ReportsAreTyped(1, 1);
  }

  // ---- the session, call by call ----

  /** The reports, and the first grant under a key. */
  lemma GrantedOnce(env: Env, a: World, key: Digest) returns (z: World, r: AttemptRecord, calls: seq<(Call, Fate)>)
    requires RealEnv(env) && TypedEngine(a.e) && a.e.tick == 0 && RecordCodec.IsDigest(key)
    requires Well(a, 9) && Within(a, 1) && a.e.store.d.topology == Defining(1, 1) && a.e.book == Evidence.EMPTY_BOOK
    requires a.e.store.d.attempts == [] && FindEntry(a.e.store.d.idempotency, key).None? && key != ZERO_DIGEST
    ensures Well(z, 9) && Within(z, 4) && z.e.store.d.topology == Defining(1, 1) && Evident(z.e, 1, 1)
    ensures z.e.store.d.attempts == [r] && OfPair(r, LINK, 1) && r.seqno == 1 && r.phase.Authorized?
    ensures |z.e.store.d.idempotency| == 1 && z.e.store.d.idempotency[0].key == key
    ensures Converse(env, a.e, calls).e == z.e && Converse(env, a.e, calls).granted == [key] && Spoken(calls) && |calls| == 3
  {
    hide Next, TopologyFault, Pairs, Defining, CountOf, Upsert, RetainAttempts, Evident, Free, FindEntry, Converse, GrantsAnew, RequestFailover, AskUnder,
      RealEnv, TypedEngine, Spoken, Keyed;
    Premise.ReportsAre(1, 1);
    var down, up := Observing(Evidence.OfSubject(DownReport(1, 1))), Observing(Evidence.OfCandidate(UpReport(1)));
    var b, c := AreHeard(env, a, 9, 1, 1);
    NothingSaid(env, a.e);
    ConverseOn(env, a.e, [], a, down);
    ConverseOn(env, a.e, [] + [(down, WILLING)], b, up);
    assert [] + [(down, WILLING)] + [(up, WILLING)] == BothReports();
    ReportsAreSpoken();
    KeyedHere(env, a.e, BothReports(), c, key);
    Premise.NobodyIsFree(c.e.store.d, LINK, 1);
    Premise.EmptyCounts(LINK, 1);
    var x, y := IsGranted(env, c, 9, 3, 1, 1, key);
    var q := AskUnder(LINK, 1, key);
    assert q.key == key by { AskedUnder(LINK, 1, key); }
    PerformAsk(env, c, q);
    ConverseOn(env, a.e, [] + [(down, WILLING)] + [(up, WILLING)], c, Requesting(q));
    calls := BothReports() + [(Requesting(q), WILLING)];
    AskIsSpoken(BothReports(), key);
    z, r := Next(env, c, Calling(Requesting(q), WILLING)), y;
    NineKept(x, y);
    Premise.EvidentLater(c.e, z.e, 1, 1);
    assert [] + [key] == [key];
  }

  lemma AskedUnder(subject: LinkKey, generation: nat, key: Digest)
    ensures AskUnder(subject, generation, key).key == key
  {}

  lemma NineKept(x: AttemptRecord, y: AttemptRecord)
    requires SameKey(x, y)
    ensures RetainAttempts(Upsert([x], y), 9) == [y] && Granted([], x, y, 9) == [y]
  {
    assert UniqueKeys([x]);
    Premise.UpsertAt([x], 0, y);
    Premise.UpsertNew([], x);
    assert [x][0 := y] == [y] && [] + [x] == [x];
  }

  lemma OneRevoked(d: Lineage.DurableState, y: AttemptRecord)
    requires d.attempts == [y] && OfPair(y, LINK, 1) && y.phase.RolledBack?
    ensures Free(d, LINK, 1) && CountOf(d.attempts, LINK, 1) == 1
  {
    assert [y][..0] == [];
  }

  lemma TwiceIsNotOnce(s: Session, key: Digest)
    requires s.granted == [key, key]
    ensures !OncePerKey(s)
  {
    assert s.granted[0] == s.granted[1];
  }

  /** The session of the theorem below. */
  lemma GrantedTwice(env: Env) returns (e: EngineState, calls: seq<(Call, Fate)>)
    requires RealEnv(env)
    ensures e == Next(env, Virgin(Small(9)), Launch(9, 1)).e && TypedEngine(e) && e.tick == 0
    ensures Converse(env, e, calls).granted == [Key(1), Key(1)] && Spoken(calls) && |calls| == 5
  {
    hide Next, TopologyFault, Pairs, Defining, CountOf, Upsert, RetainAttempts, Evident, Free, FindEntry, Converse, GrantsAnew, RequestFailover, AskUnder,
      Granted, Virgin, Launch, Key, Lookup, Perform, RealEnv, TypedEngine, Spoken, Keyed;
    KeysDiffer();
    var a := Opens(env, 9);
    e := a.e;
    OpensTyped(env, a);
    EmptyIndex(a.e.store.d.idempotency, Key(1));
    var b, r;
    b, r, calls := GrantedOnce(env, a, Key(1));
    KeyedHere(env, e, calls, b, Key(2));
    var c := RevokedOnce(env, b, r);
    ConverseOn(env, e, calls, b, RollingBack(Revoke(r, Key(2))));
    RevokeIsSpoken(calls, r);
    calls := calls + [(RollingBack(Revoke(r, Key(2))), WILLING)];
    LastIsFound(c.e.store.d.idempotency, Key(1), Key(2));
    KeyedHere(env, e, calls, c, Key(1));
    var x, u := IsGranted(env, c, 9, 5, 1, 1, Key(1));
    var q := AskUnder(LINK, 1, Key(1));
    assert q.key == Key(1) by { AskedUnder(LINK, 1, Key(1)); }
    PerformAsk(env, c, q);
    ConverseOn(env, e, calls, c, Requesting(q));
    AskIsSpoken(calls, Key(1));
    calls := calls + [(Requesting(q), WILLING)];
    assert [Key(1)] + [Key(1)] == [Key(1), Key(1)];
  }

  lemma RevokeIsSpoken(calls: seq<(Call, Fate)>, r: AttemptRecord)
    requires Spoken(calls)
    ensures Spoken(calls + [(RollingBack(Revoke(r, Key(2))), WILLING)])
  {
    hide Spoken;
    SpokenOn(calls, RollingBack(Revoke(r, Key(2))));
  }

  /** The first process of a run is well typed. */
  lemma OpensTyped(env: Env, a: World)
    requires RealEnv(env) && a == Next(env, Virgin(Small(9)), Launch(9, 1)) && a.up
    ensures TypedEngine(a.e)
  {
    hide RealEnv, TypedEngine, Next, Launch, Virgin, TypedRuns.TypedArguments;
    TypedRuns.VirginTyped(Small(9));
    LaunchIsTyped(9, 1);
    LaunchEvent(Virgin(Small(9)), 9, 1);
    TypedRuns.NextTyped(env, Virgin(Small(9)), Launch(9, 1));
    TypedUp(a);
  }

  lemma TypedUp(w: World)
    requires TypedRuns.TypedWorld(w) && w.up
    ensures TypedEngine(w.e)
  {
    hide TypedEngine;
  }

  lemma LaunchEvent(w: World, table: nat, n: byte)
    requires TypedRuns.TypedArguments(Launch(table, n))
    ensures TypedRuns.TypedEvent(w, Launch(table, n))
  {
    hide Small;
  }

  /** The rollback under another key, which takes the one place of the index. */
  lemma RevokedOnce(env: Env, b: World, r: AttemptRecord) returns (c: World)
    requires Keyed(env, b, Key(2))
    requires Well(b, 9) && Within(b, 4) && b.e.store.d.topology == Defining(1, 1) && Evident(b.e, 1, 1)
    requires b.e.store.d.attempts == [r] && OfPair(r, LINK, 1) && r.phase.Authorized?
    requires |b.e.store.d.idempotency| == 1 && b.e.store.d.idempotency[0].key == Key(1)
    ensures c == Next(env, b, Calling(RollingBack(Revoke(r, Key(2))), WILLING))
    ensures Well(c, 9) && Within(c, 5) && c.e.store.d.topology == Defining(1, 1) && Evident(c.e, 1, 1)
    ensures Free(c.e.store.d, LINK, 1) && CountOf(c.e.store.d.attempts, LINK, 1) == 1
    ensures |c.e.store.d.idempotency| == 1 && c.e.store.d.idempotency[0].key == Key(2)
  {
    hide Next, TopologyFault, Pairs, Defining, CountOf, Upsert, RetainAttempts, Evident, Free, FindEntry, Granted, Key, Lookup, Keyed;
    KeysDiffer();
    LastIsFound(b.e.store.d.idempotency, Key(2), Key(1));
    assert Lookup(b.e.store.d.attempts, r.subject, r.seqno) == Some(r) by { Premise.OneFound(r); }
    var y := IsRevoked(env, b, 9, 4, r, Key(2));
    c := Next(env, b, Calling(RollingBack(Revoke(r, Key(2))), WILLING));
    NineKept(r, y);
    Premise.EvidentLater(b.e, c.e, 1, 1);
    OneRevoked(c.e.store.d, y);
  }

  /**
   * An index of one entry: a key is granted, the grant is rolled back under another key, whose entry
   * evicts the first, and the first key is granted again - in one boot, under the engine's own bound on
   * an entry, with no write failing and the index taking every entry. So without room in the index a key
   * can authorize twice.
   */
  lemma EvictedKeyIsGrantedAgain(env: Env) returns (e: EngineState, calls: seq<(Call, Fate)>)
    requires RealEnv(env)
    ensures e == Next(env, Virgin(Small(9)), Launch(9, 1)).e
    ensures TypedEngine(e) && Spoken(calls)
    ensures Converse(env, e, calls).granted == [Key(1), Key(1)] && GrantsFit(env, e, calls)
    ensures !OncePerKey(Converse(env, e, calls)) && !IndexHasRoom(env, e, calls)
  {
    hide Next, Converse, GrantsFit, IndexHasRoom, OncePerKey, Virgin, Launch, Key, RealEnv, TypedEngine, TypedCall, RecordCodec.LinkOk;
    e, calls := GrantedTwice(env);
    TypedRuns.EveryGrantIsTaken(env, e, calls);
    TwiceIsNotOnce(Converse(env, e, calls), Key(1));
    if IndexHasRoom(env, e, calls) { OneGrantPerKey(env, e, calls); }
  }

  lemma EmptyIndex(index: seq<IdempotencyEntry>, key: Digest)
    requires index == []
    ensures FindEntry(index, key).None?
  {}
}
