/** Why the standing premise is needed: two runs, spelled out event by event, that break it once. */
module Premise {
  import opened Basics
  import opened ByteBits
  import opened Records
  import opened Lineage
  import opened Table
  import opened Invariant
  import opened StoreSafety
  import opened Protocol
  import opened EngineCalls
  import opened Runs
  import opened Grants
  import opened Scenario
  import Evidence
  import RecordCodec
  import Snapshot
  import TableRuns
  import TypedCalls
  import TypedRuns
  import TypedStore
  import Verdicts
  import Retention
  import Sorting

  // ---- what the premise says ----

  /** The premise on a definition, as a caller can check it: what it newly defines was never defined before. */
  lemma NothingReinstatedMeans(h: History, was: Topology, t: Topology)
    ensures NothingReinstated(h, was, t) <==>
              forall subject, generation :: Defines(t, subject, generation) && Pair(subject, generation) in h.used ==> Defines(was, subject, generation)
  {
    hide Defines, Pairs;
    forall subject, generation
      ensures Pair(subject, generation) in Pairs(t) <==> Defines(t, subject, generation)
      ensures Pair(subject, generation) in Pairs(was) <==> Defines(was, subject, generation)
    {
      PairsMeans(t, subject, generation);
      PairsMeans(was, subject, generation);
    }
    if forall subject, generation :: Defines(t, subject, generation) && Pair(subject, generation) in h.used ==> Defines(was, subject, generation) {
      forall p | p in Pairs(t) * h.used ensures p in Pairs(was) {
        assert p == Pair(p.subject, p.generation) && Defines(t, p.subject, p.generation);
      }
    }
  }

  /** What a run remembers is exactly what it was through: the pairs of its start, and those of every topology since. */
  lemma {:induction false} HistoryMeans(env: Env, w: World, events: seq<Event>, p: Pair)
    requires Pairs(w.e.store.disk.topology) <= w.h.used
    ensures p in Run(env, w, events).h.used <==>
              p in w.h.used || exists i :: 0 <= i <= |events| && p in Pairs(Run(env, w, events[..i]).e.store.disk.topology)
    decreases |events|
  {
    hide Next, Pairs;
    if events == [] {
      assert forall i :: 0 <= i <= |events| ==> events[..i] == [];
    } else {
      var n := Next(env, w, events[0]);
      NextRemembers(env, w, events[0]);
      HistoryMeans(env, n, events[1..], p);
      forall i | 0 <= i <= |events[1..]| ensures Run(env, n, events[1..][..i]) == Run(env, w, events[..i + 1]) {
        assert events[..i + 1][1..] == events[1..][..i];
      }
      assert events[..0] == [] && events[1..][..0] == [];
      assert Run(env, w, events[..0]) == w && Run(env, n, events[1..][..0]) == n;
      if p in w.h.used {
      } else if p in n.h.used {
        assert Run(env, w, events[..1]) == n;
      } else if p in Run(env, w, events).h.used {
        var i :| 0 <= i <= |events[1..]| && p in Pairs(Run(env, n, events[1..][..i]).e.store.disk.topology);
        assert p in Pairs(Run(env, w, events[..i + 1]).e.store.disk.topology);
      }
      forall i | 0 <= i <= |events| && p in Pairs(Run(env, w, events[..i]).e.store.disk.topology) ensures p in Run(env, w, events).h.used {
        if i > 0 { assert p in Pairs(Run(env, n, events[1..][..i - 1]).e.store.disk.topology); }
      }
    }
  }

  lemma NextRemembers(env: Env, w: World, ev: Event)
    requires Pairs(w.e.store.disk.topology) <= w.h.used
    ensures Next(env, w, ev).h.used == w.h.used + Pairs(Next(env, w, ev).e.store.disk.topology)
  {
    hide Perform, OpenEngine, Pairs;
  }

  // ---- tables, spelled out ----

  lemma CountOn(a: seq<AttemptRecord>, r: AttemptRecord, subject: LinkKey, generation: nat)
    ensures CountOf(a + [r], subject, generation) == CountOf(a, subject, generation) + (if OfPair(r, subject, generation) then 1 else 0)
  {
    assert (a + [r])[..|a|] == a;
  }

  lemma UpsertNew(a: seq<AttemptRecord>, r: AttemptRecord)
    requires forall x :: x in a ==> !SameKey(x, r)
    ensures Upsert(a, r) == a + [r]
  {
    forall j | 0 <= j < |a| ensures !SameKey(a[j], r) { assert a[j] in a; }
  }

  lemma UpsertAt(a: seq<AttemptRecord>, i: nat, r: AttemptRecord)
    requires UniqueKeys(a) && i < |a| && SameKey(a[i], r)
    ensures Upsert(a, r) == a[i := r]
  {
    NoTwins(a, IndexOf(a, r.subject, r.seqno), i);
  }

  /** An attempt of the link that was declined. */
  predicate Undecided(x: AttemptRecord, generation: nat, seqno: nat) {
    OfPair(x, LINK, generation) && x.seqno == seqno && x.phase == Phase.Indeterminate
  }

  lemma NobodyIsFree(d: Lineage.DurableState, subject: LinkKey, generation: nat)
    requires forall r :: r in d.attempts ==> !HoldsAuthority(r.phase) && !r.phase.Interrupted?
    ensures Free(d, subject, generation)
  {}

  lemma RoomStands(env: Env, w: World, subject: LinkKey, generation: nat)
    requires |w.e.store.d.attempts| < w.e.store.limits.maxAttempts
    ensures Standing(env, w, Calling(Requesting(Ask(subject, generation)), WILLING))
  {
    hide CountOf, FailoverGate, FindEntry, Defines;
  }

  lemma AskIs(subject: LinkKey, generation: nat)
    ensures Ask(subject, generation) == AskUnder(subject, generation, ZERO_DIGEST)
  {}

  lemma NothingAsked(env: Env, w: World, call: Call)
    requires !call.SettingTopology? && !call.Requesting?
    ensures Standing(env, w, Calling(call, WILLING))
  {}

  lemma NothingReported(w: World, subject: LinkKey)
    requires w.e.book == Evidence.EMPTY_BOOK
    ensures Verdicts.Reporters(w.e.book.failure, subject) == {}
  {}

  /** One more event of a run. */
  lemma Advance(env: Env, v: World, events: seq<Event>, i: nat, spared: int, w: World)
    requires i < |events| && Leads(env, v, events[..i], spared, w) && (i == spared || Standing(env, w, events[i]))
    ensures Leads(env, v, events[..i + 1], spared, Next(env, w, events[i]))
  {
    hide Leads, Standing, Next;
    LeadsOn(env, v, events[..i], spared, w, events[i]);
    assert events[..i] + [events[i]] == events[..i + 1];
  }

  // ---- a generation that came back ----

  const TAKEN := RevalidationRequest(LINK, 1, 2, Applied, Boot16(9), 2)

  /**
   * Generation 1 of a link makes three attempts; generation 2 replaces it and overwrites the first two;
   * then generation 1 comes back: its count is 1, so it is granted attempt 2. The process dies. Attempt 2
   * is now interrupted, yet the highest sequence of the generation is 3, so the gate, which asks only about
   * the latest attempt, is open, and the next sequence is 3 again. Attempt 2 turns out to have been applied.
   */
  function Returning(): (s: seq<Event>)
    ensures |s| == 17
  {
    var first, second := Calling(Requesting(Ask(LINK, 1)), WILLING), Calling(Requesting(Ask(LINK, 2)), WILLING);
    [Launch(9, 1), first, first, first,
     Calling(SettingTopology(Defining(2, 2)), WILLING), second, second,
     Calling(SettingTopology(Defining(3, 1)), WILLING)] + Reports(1, 3) + [first,
     Calling(Checkpointing, WILLING), Launch(9, 2)] + Reports(1, 3) + [first,
     Calling(Resolving(TAKEN), WILLING)]
  }

  /** The event that reinstates generation 1. */
  const BACK := 7

  lemma Declined(env: Env, v: World, events: seq<Event>, i: nat, w: World, n: nat, generation: nat) returns (z: World, x: AttemptRecord)
    requires i < |events| && Leads(env, v, events[..i], BACK, w) && events[i] == Calling(Requesting(Ask(LINK, generation)), WILLING)
    requires Well(w, 9) && Within(w, n) && n <= 98 && generation != 0 && w.e.book == Evidence.EMPTY_BOOK
    requires Defines(w.e.store.d.topology, LINK, generation) && |w.e.store.d.attempts| < 9
    requires forall r :: r in w.e.store.d.attempts ==> r.phase == Phase.Indeterminate
    ensures Leads(env, v, events[..i + 1], BACK, z) && Well(z, 9) && Within(z, n + 1) && Moved(w, z, 9) && z.e.book == w.e.book
    ensures z.e.store.d.attempts == Upsert(w.e.store.d.attempts, x)
    ensures Undecided(x, generation, CountOf(w.e.store.d.attempts, LINK, generation) + 1)
  {
    hide CountOf, Upsert, Next, Standing, Leads, Verdicts.Reporters, Free, TopologyFault, Pairs, Find;
    NobodyIsFree(w.e.store.d, LINK, generation);
    NothingReported(w, LINK);
    RoomStands(env, w, LINK, generation);
    CountFits(w.e.store.d.attempts, LINK, generation);
    x := Declines(env, w, 9, n, LINK, generation);
    z := Next(env, w, events[i]);
    Advance(env, v, events, i, BACK, w);
    UpsertSize(w.e.store.d.attempts, x);
  }

  lemma CountFits(a: seq<AttemptRecord>, subject: LinkKey, generation: nat)
    ensures CountOf(a, subject, generation) <= |a|
  {}

  lemma ReturningBegins()
    ensures var s := Returning();
            && s[0] == Launch(9, 1) && s[1] == s[2] == s[3] == Calling(Requesting(Ask(LINK, 1)), WILLING)
            && s[4] == Calling(SettingTopology(Defining(2, 2)), WILLING) && s[5] == s[6] == Calling(Requesting(Ask(LINK, 2)), WILLING)
            && s[7] == Calling(SettingTopology(Defining(3, 1)), WILLING)
  {
    hide Ask, Defining, Launch, Reports;
  }

  lemma ReturningEnds()
    ensures var s := Returning();
            && s[8] == s[13] == Reports(1, 3)[0] && s[9] == s[14] == Reports(1, 3)[1]
            && s[10] == s[15] == Calling(Requesting(Ask(LINK, 1)), WILLING)
            && s[11] == Calling(Checkpointing, WILLING) && s[12] == Launch(9, 2) && s[16] == Calling(Resolving(TAKEN), WILLING)
  {
    hide Ask, Defining, Launch, DownReport, UpReport;
  }

  /** Three attempts of generation 1. */
  lemma FirstThree(env: Env) returns (z: World, x: AttemptRecord, y: AttemptRecord, u: AttemptRecord)
    ensures Leads(env, Virgin(Small(9)), Returning()[..4], BACK, z) && Well(z, 9) && Within(z, 4)
    ensures z.e.store.d.topology == Defining(1, 1) && z.e.book == Evidence.EMPTY_BOOK && z.e.epoch == 1 && z.h.used == Pairs(Defining(1, 1))
    ensures z.e.store.d.attempts == [x, y, u] && Undecided(x, 1, 1) && Undecided(y, 1, 2) && Undecided(u, 1, 3)
  {
    hide Next, Standing, Leads, Returning, TopologyFault, Pairs, Defining, CountOf, Upsert, Virgin, Launch, Ask, Boot16, Find;
    ReturningBegins();
    DefiningIsSound(1, 1);
    var v, s := Virgin(Small(9)), Returning();
    var a := Opens(env, 9);
    NoEvents(env, v, BACK);
    assert s[..0] == [];
    Advance(env, v, s, 0, BACK, v);
    assert Within(a, 1);
    var b, c;
    b, x := Declined(env, v, s, 1, a, 1, 1);
    TableOfOne(x, 1);
    c, y := Declined(env, v, s, 2, b, 2, 1);
    UpsertNew([x], y);
    CountOn([x], y, LINK, 1);
    assert [x] + [y] == [x, y];
    z, u := Declined(env, v, s, 3, c, 3, 1);
    UpsertNew([x, y], u);
    assert [x, y] + [u] == [x, y, u];
    PairsAdded(z.h.used, Defining(1, 1));
  }

  lemma PairsAdded(s: set<Pair>, t: Topology)
    ensures Pairs(t) + Pairs(t) == Pairs(t)
  {}

  lemma TableOfOne(x: AttemptRecord, generation: nat)
    ensures Upsert([], x) == [x] && CountOf([], LINK, generation) == 0
    ensures CountOf([x], LINK, generation) == if OfPair(x, LINK, generation) then 1 else 0
  {
    assert [x][..0] == [];
  }

  lemma NoEvents(env: Env, w: World, spared: int)
    ensures Leads(env, w, [], spared, w)
  {}

  lemma DefinitionStands(env: Env, w: World, generation: nat, of: nat)
    requires of != 0 && w.h.used <= Pairs(w.e.store.disk.topology)
    ensures Standing(env, w, Calling(SettingTopology(Defining(generation, of)), WILLING))
  {
    hide Pairs, Defining, Canonicalised;
    DefiningIsSound(generation, of);
  }

  /** Bringing back what was left is what the premise rules out. */
  lemma DefinitionFalls(env: Env, w: World, generation: nat, of: nat)
    requires of != 0 && Pair(LINK, of) in w.h.used && !Defines(w.e.store.disk.topology, LINK, of)
    ensures !Standing(env, w, Calling(SettingTopology(Defining(generation, of)), WILLING))
  {
    hide Pairs, Defining, Canonicalised, Defines;
    DefiningIsSound(generation, of);
    PairsMeans(Defining(generation, of), LINK, of);
    PairsMeans(w.e.store.disk.topology, LINK, of);
  }

  /** And so does the weaker premise, where an attempt of it has a number above the count. */
  lemma DefinitionFallsNow(env: Env, w: World, generation: nat, of: nat, r: AttemptRecord)
    requires of != 0 && w.e.store.d == w.e.store.disk && r in w.e.store.d.attempts && OfPair(r, LINK, of)
    requires r.seqno > CountOf(w.e.store.d.attempts, LINK, of)
    ensures !TableRuns.StandingNow(env, w, Calling(SettingTopology(Defining(generation, of)), WILLING))
  {
    hide Defining, Canonicalised, Defines, CountOf, NumberedUnder;
    DefiningIsSound(generation, of);
    TableRuns.NumberedMeans(w.e.store.d.attempts, Defining(generation, of));
    assert r.seqno in SeqnosOf(w.e.store.d.attempts, LINK, of);
  }

  lemma LinkIsDefined(generation: nat, of: nat)
    requires of != 0
    ensures Pair(LINK, of) in Pairs(Defining(generation, of))
    ensures forall g :: Defines(Defining(generation, of), LINK, g) ==> g == of
  {
    DefiningIsSound(generation, of);
    PairsMeans(Defining(generation, of), LINK, of);
  }

  /** Three attempts of one link under the sequences 1 to 3. */
  ghost predicate Three(a: seq<AttemptRecord>, x: AttemptRecord, y: AttemptRecord, u: AttemptRecord) {
    && a == [x, y, u] && x.subject == y.subject == u.subject == LINK && x.seqno == 1 && y.seqno == 2 && u.seqno == 3
  }

  lemma ThreeIs(a: seq<AttemptRecord>, x: AttemptRecord, y: AttemptRecord, u: AttemptRecord)
    requires Three(a, x, y, u)
    ensures UniqueKeys(a) && (forall r :: r in a <==> r == x || r == y || r == u)
    ensures forall g :: CountOf(a, LINK, g) == (if x.generation == g then 1 else 0) + (if y.generation == g then 1 else 0) + (if u.generation == g then 1 else 0)
  {
    assert x == a[0] && y == a[1] && u == a[2];
    forall g ensures CountOf(a, LINK, g) == (if x.generation == g then 1 else 0) + (if y.generation == g then 1 else 0) + (if u.generation == g then 1 else 0) {
      assert a[..2] == [x, y] && [x, y][..1] == [x] && [x][..0] == [];
      assert CountOf([x], LINK, g) == if x.generation == g then 1 else 0;
      assert CountOf([x, y], LINK, g) == CountOf([x], LINK, g) + if y.generation == g then 1 else 0;
    }
  }

  /** Putting the attempt of sequence `r.seqno` into a table of three. */
  lemma ThreePut(a: seq<AttemptRecord>, x: AttemptRecord, y: AttemptRecord, u: AttemptRecord, r: AttemptRecord)
    requires Three(a, x, y, u) && r.subject == LINK && 1 <= r.seqno <= 3
    ensures if r.seqno == 1 then Three(Upsert(a, r), r, y, u) else if r.seqno == 2 then Three(Upsert(a, r), x, r, u) else Three(Upsert(a, r), x, y, r)
  {
    ThreeIs(a, x, y, u);
    UpsertAt(a, r.seqno - 1, r);
  }

  /** Generation 2 overwrites the first two attempts of generation 1, and generation 1 comes back. */
  lemma CameBack(env: Env) returns (before: World, z: World, x: AttemptRecord, y: AttemptRecord, u: AttemptRecord)
    ensures Leads(env, Virgin(Small(9)), Returning()[..7], BACK, before)
    ensures !Standing(env, before, Returning()[BACK]) && !TableRuns.StandingNow(env, before, Returning()[BACK])
    ensures Leads(env, Virgin(Small(9)), Returning()[..8], BACK, z) && Well(z, 9) && Within(z, 8)
    ensures z.e.store.d.topology == Defining(3, 1) && z.e.book == Evidence.EMPTY_BOOK && z.e.epoch == 1
    ensures Three(z.e.store.d.attempts, x, y, u) && Undecided(x, 2, 1) && Undecided(y, 2, 2) && Undecided(u, 1, 3)
  {
    hide Next, Standing, Leads, Returning, TopologyFault, Pairs, Defining, CountOf, Upsert, Virgin, Launch, Ask, Find, Three, Defines, TableRuns.StandingNow;
    ReturningBegins();
    var v, s := Virgin(Small(9)), Returning();
    var a, x0, y0;
    a, x0, y0, u := FirstThree(env);
    assert Three(a.e.store.d.attempts, x0, y0, u) by { ThreeFrom(a.e.store.d.attempts, x0, y0, u); }
    ThreeIs(a.e.store.d.attempts, x0, y0, u);
    DefiningGeneration(1, 1);
    DefinitionStands(env, a, 2, 2);
    IsDefined(env, a, 9, 4, 2, 2);
    Advance(env, v, s, 4, BACK, a);
    var b := Next(env, a, s[4]);
    DefiningIsSound(2, 2);
    ThreeLong(b.e.store.d.attempts, x0, y0, u);
    var c;
    c, x := Declined(env, v, s, 5, b, 5, 2);
    ThreePut(b.e.store.d.attempts, x0, y0, u, x);
    ThreeIs(c.e.store.d.attempts, x, y0, u);
    ThreeLong(c.e.store.d.attempts, x, y0, u);
    before, y := Declined(env, v, s, 6, c, 6, 2);
    ThreePut(c.e.store.d.attempts, x, y0, u, y);
    ThreeIs(before.e.store.d.attempts, x, y, u);
    LinkIsDefined(1, 1);
    LinkIsDefined(2, 2);
    DefinitionFalls(env, before, 3, 1);
    DefinitionFallsNow(env, before, 3, 1, u);
    DefiningGeneration(2, 2);
    IsDefined(env, before, 9, 7, 3, 1);
    Advance(env, v, s, 7, BACK, before);
    z := Next(env, before, s[7]);
  }

  lemma ThreeFrom(a: seq<AttemptRecord>, x: AttemptRecord, y: AttemptRecord, u: AttemptRecord)
    requires a == [x, y, u] && Undecided(x, 1, 1) && Undecided(y, 1, 2) && Undecided(u, 1, 3)
    ensures Three(a, x, y, u)
  {}

  lemma ThreeLong(a: seq<AttemptRecord>, x: AttemptRecord, y: AttemptRecord, u: AttemptRecord)
    requires Three(a, x, y, u)
    ensures |a| == 3
  {}

  /** Two reports on an empty book. */
  lemma Reported(env: Env, v: World, events: seq<Event>, i: nat, spared: int, w: World, table: nat, n: nat, generation: nat, topology: nat) returns (z: World)
    requires i + 1 < |events| && Leads(env, v, events[..i], spared, w)
    requires events[i] == Reports(generation, topology)[0] && events[i + 1] == Reports(generation, topology)[1]
    requires Well(w, table) && Within(w, n) && n <= 90 && w.e.book == Evidence.EMPTY_BOOK && generation != 0 && topology != 0
    ensures Leads(env, v, events[..i + 2], spared, z) && Well(z, table) && Within(z, n + 2)
    ensures z.e.store.d == w.e.store.d && z.e.epoch == w.e.epoch && z.e.incarnation == w.e.incarnation && Evident(z.e, generation, topology)
  {
    hide Next, Standing, Leads, TopologyFault, Pairs, Evident, Reports;
    ReportsAre(generation, topology);
    var m;
    m, z := AreHeard(env, w, table, generation, topology);
    NothingAsked(env, w, events[i].call);
    Advance(env, v, events, i, spared, w);
    NothingAsked(env, m, events[i + 1].call);
    Advance(env, v, events, i + 1, spared, m);
  }

  /** A grant, where the table has room. */
  lemma GrantedNext(env: Env, v: World, events: seq<Event>, i: nat, spared: int, w: World, table: nat, n: nat, generation: nat, topology: nat)
    returns (z: World, x: AttemptRecord, y: AttemptRecord)
    requires i < |events| && Leads(env, v, events[..i], spared, w) && events[i] == Calling(Requesting(Ask(LINK, generation)), WILLING)
    requires Well(w, table) && Within(w, n) && n <= 95 && generation != 0 && |w.e.store.d.attempts| < table
    requires Evident(w.e, generation, topology) && w.e.store.d.topology == Defining(topology, generation)
    requires Free(w.e.store.d, LINK, generation) && CountOf(w.e.store.d.attempts, LINK, generation) < 9
    ensures Leads(env, v, events[..i + 1], spared, z) && Well(z, table) && Within(z, n + 1) && Moved(w, z, table) && z.e.book == w.e.book
    ensures z.e.store.d.attempts == Granted(w.e.store.d.attempts, x, y, table)
    ensures Issued(x, w.e, generation, CountOf(w.e.store.d.attempts, LINK, generation) + 1) && x.phase.Evaluated?
    ensures Issued(y, w.e, generation, CountOf(w.e.store.d.attempts, LINK, generation) + 1) && y.phase.Authorized?
    ensures y.attemptId == env.h.attempt(FABRIC, LINK, generation, CountOf(w.e.store.d.attempts, LINK, generation) + 1)
  {
    hide Next, Standing, Leads, TopologyFault, Pairs, Defining, CountOf, Ask, Evident, Free, Granted, Issued;
    RoomStands(env, w, LINK, generation);
    AskIs(LINK, generation);
    x, y := IsGranted(env, w, table, n, generation, topology, ZERO_DIGEST);
    Advance(env, v, events, i, spared, w);
    z := Next(env, w, events[i]);
  }

  /** Two reports and the grant that rests on them. */
  lemma Regranted(env: Env, v: World, events: seq<Event>, i: nat, w: World, n: nat, x: AttemptRecord, y: AttemptRecord, u: AttemptRecord)
    returns (z: World, r: AttemptRecord)
    requires i + 2 < |events| && i > BACK && Leads(env, v, events[..i], BACK, w)
    requires events[i] == Reports(1, 3)[0] && events[i + 1] == Reports(1, 3)[1] && events[i + 2] == Calling(Requesting(Ask(LINK, 1)), WILLING)
    requires Well(w, 9) && Within(w, n) && n <= 90 && w.e.store.d.topology == Defining(3, 1) && w.e.book == Evidence.EMPTY_BOOK
    requires Three(w.e.store.d.attempts, x, y, u) && Free(w.e.store.d, LINK, 1)
    requires var count := CountOf(w.e.store.d.attempts, LINK, 1); 1 <= count <= 2
    ensures Leads(env, v, events[..i + 3], BACK, z) && Well(z, 9) && Within(z, n + 3)
    ensures z.e.store.d.topology == Defining(3, 1) && z.e.epoch == w.e.epoch && z.e.incarnation == w.e.incarnation
    ensures if CountOf(w.e.store.d.attempts, LINK, 1) == 1 then Three(z.e.store.d.attempts, x, r, u) else Three(z.e.store.d.attempts, x, y, r)
    ensures Issued(r, w.e, 1, CountOf(w.e.store.d.attempts, LINK, 1) + 1) && r.phase.Authorized?
  {
    hide Next, Standing, Leads, TopologyFault, Pairs, Defining, CountOf, Upsert, RetainAttempts, Ask, Three, Evident, Reports, Free, Granted, NextFits;
    var k := Reported(env, v, events, i, BACK, w, 9, n, 1, 3);
    ThreeLong(w.e.store.d.attempts, x, y, u);
    var first;
    z, first, r := GrantedNext(env, v, events, i + 2, BACK, k, 9, n + 2, 1, 3);
    ThreeGranted(w.e.store.d.attempts, x, y, u, first, r);
  }

  lemma ThreeGranted(a: seq<AttemptRecord>, x: AttemptRecord, y: AttemptRecord, u: AttemptRecord, first: AttemptRecord, r: AttemptRecord)
    requires Three(a, x, y, u) && first.subject == r.subject == LINK && 2 <= first.seqno == r.seqno <= 3
    ensures if r.seqno == 2 then Three(Granted(a, first, r, 9), x, r, u) else Three(Granted(a, first, r, 9), x, y, r)
  {
    hide Upsert, RetainAttempts, Three;
    ThreePut(a, x, y, u, first);
    if r.seqno == 2 {
      ThreeKept(Upsert(a, first), x, first, u);
      ThreePut(Upsert(a, first), x, first, u, r);
      ThreeKept(Upsert(Upsert(a, first), r), x, r, u);
    } else {
      ThreeKept(Upsert(a, first), x, y, first);
      ThreePut(Upsert(a, first), x, y, first, r);
      ThreeKept(Upsert(Upsert(a, first), r), x, y, r);
    }
  }

  lemma ThreeKept(a: seq<AttemptRecord>, x: AttemptRecord, y: AttemptRecord, u: AttemptRecord)
    requires Three(a, x, y, u)
    ensures RetainAttempts(a, 9) == a
  {}

  lemma ReportsAre(generation: nat, topology: nat)
    ensures Reports(generation, topology)[0] == Calling(Observing(Evidence.OfSubject(DownReport(generation, topology))), WILLING)
    ensures Reports(generation, topology)[1] == Calling(Observing(Evidence.OfCandidate(UpReport(topology))), WILLING)
  {}

  /** Generation 1 is granted its attempt 2 again, and the medium is compacted. */
  lemma GrantedAgain(env: Env) returns (c: World, d: Lineage.DurableState, x: AttemptRecord, g: AttemptRecord, u: AttemptRecord)
    ensures Leads(env, Virgin(Small(9)), Returning()[..12], BACK, c) && Well(c, 9) && Within(c, 12)
    ensures c.e.store.d.topology == Defining(3, 1) && c.e.epoch == 1 && Compacted(c.e.store.medium, d) && c.e.store.d.attempts == d.attempts
    ensures d.fabric == FABRIC && d.policy == POLICY && d.topology == Defining(3, 1) && d.lastSeq <= 99 && d.bootCount == d.epochAdvances == d.epoch == 1
    ensures Three(d.attempts, x, g, u) && Undecided(x, 2, 1) && OfPair(g, LINK, 1) && g.phase.Authorized? && !g.revalidated && Undecided(u, 1, 3)
  {
    hide Next, Standing, Leads, Returning, TopologyFault, Pairs, Defining, CountOf, Upsert, RetainAttempts, Virgin, Launch, Ask, Three, Reports, Free, Compacted;
    ReturningEnds();
    var v, s := Virgin(Small(9)), Returning();
    var _, a, x', y0, u' := CameBack(env);
    x, u := x', u';
    ThreeIs(a.e.store.d.attempts, x, y0, u);
    NobodyIsFree(a.e.store.d, LINK, 1);
    var b;
    b, g := Regranted(env, v, s, 8, a, 8, x, y0, u);
    NothingAsked(env, b, Checkpointing);
    Advance(env, v, s, 11, BACK, b);
    IsCompacted(env, b, 9, 11);
    c, d := Next(env, b, s[11]), b.e.store.d;
    ThreeIs(d.attempts, x, g, u);
  }

  /** The process dies, and the next one interrupts the attempt. */
  lemma CutOff(env: Env) returns (z: World, x: AttemptRecord, y: AttemptRecord, u: AttemptRecord)
    ensures Leads(env, Virgin(Small(9)), Returning()[..13], BACK, z) && Well(z, 9) && Within(z, 13)
    ensures z.e.store.d.topology == Defining(3, 1) && z.e.book == Evidence.EMPTY_BOOK && z.e.epoch == 2
    ensures Three(z.e.store.d.attempts, x, y, u) && Undecided(x, 2, 1) && OfPair(y, LINK, 1) && y.phase.Interrupted? && !y.revalidated && Undecided(u, 1, 3)
  {
    hide Next, Standing, Leads, Returning, TopologyFault, Pairs, Defining, CountOf, Upsert, RetainAttempts, Virgin, Launch, Ask, Three, Reports, Free, Compacted;
    ReturningEnds();
    var v, s := Virgin(Small(9)), Returning();
    var c, d, g;
    c, d, x, g, u := GrantedAgain(env);
    ThreeParts(d.attempts, x, g, u);
    SeqnoOf(d.attempts, x, g, u);
    ThreeLong(d.attempts, x, g, u);
    z, y := Reopens(env, c, 9, 12, d, [x], g, [u]);
    Advance(env, v, s, 12, BACK, c);
    ThreePut(d.attempts, x, g, u, y);
  }

  lemma ThreeParts(a: seq<AttemptRecord>, x: AttemptRecord, y: AttemptRecord, u: AttemptRecord)
    requires Three(a, x, y, u)
    ensures a == [x] + [y] + [u] && forall r :: r in [x] + [u] ==> r == x || r == u
  {}

  /** The interrupted attempt is not the latest of its generation, so the gate does not see it. */
  lemma GateMissesTheInterruptedAttempt(env: Env) returns (z: World, y: AttemptRecord)
    ensures Leads(env, Virgin(Small(9)), Returning()[..13], BACK, z)
    ensures y in z.e.store.d.attempts && OfPair(y, LINK, 1) && y.phase.Interrupted? && !y.revalidated
    ensures FailoverGate(env, z.e, Ask(LINK, 1)).Open?
    ensures CountOf(z.e.store.d.attempts, LINK, 1) + 1 in SeqnosOf(z.e.store.d.attempts, LINK, 1)
  {
    hide Leads, Returning, Virgin, Three, FailoverGate, Free;
    var x, u;
    z, x, y, u := CutOff(env);
    LatestIsDeclined(z.e.store.d, x, y, u);
    FreeOpens(env, z.e, Ask(LINK, 1));
    ThreeIs(z.e.store.d.attempts, x, y, u);
    assert u in z.e.store.d.attempts && u.seqno == 3;
  }

  lemma LatestIsDeclined(d: Lineage.DurableState, x: AttemptRecord, y: AttemptRecord, u: AttemptRecord)
    requires Three(d.attempts, x, y, u) && Undecided(x, 2, 1) && OfPair(y, LINK, 1) && y.phase.Interrupted? && Undecided(u, 1, 3)
    ensures Free(d, LINK, 1) && CountOf(d.attempts, LINK, 1) == 2
  {
    hide CountOf;
    ThreeIs(d.attempts, x, y, u);
    assert u in d.attempts && OfPair(u, LINK, 1);
  }

  /**
   * One reinstatement is enough for two winners. From an empty medium, with every other event under
   * the premise and no write failing, the run ends with two attempts of one link generation that both
   * hold authority under the current epoch and coordinator. Of the reinstated generation the attempt
   * numbered 3 is left alone, so the event breaks the weaker premise, too.
   */
  lemma TwoWinners(env: Env) returns (z: World, r: AttemptRecord, x: AttemptRecord)
    ensures z == Run(env, Virgin(Small(9)), Returning()) && SparedRun(env, Virgin(Small(9)), Returning(), BACK)
    ensures !Standing(env, Run(env, Virgin(Small(9)), Returning()[..BACK]), Returning()[BACK])
    ensures !TableRuns.StandingNow(env, Run(env, Virgin(Small(9)), Returning()[..BACK]), Returning()[BACK])
    ensures z.up && r in z.e.store.d.attempts && x in z.e.store.d.attempts && r != x && SamePair(r, x)
    ensures Active(z.e.store.d, r) && Active(z.e.store.d, x)
  {
    hide Next, Standing, Returning, TopologyFault, Pairs, Defining, CountOf, Upsert, RetainAttempts, Virgin, Ask, Three, Reports, Free, Run, SparedRun,
      TableRuns.StandingNow;
    ReturningEnds();
    var v, s := Virgin(Small(9)), Returning();
    var _, _, _, _, _ := CameBack(env);
    var a, p, y, u := CutOff(env);
    LatestIsDeclined(a.e.store.d, p, y, u);
    var b, g := Regranted(env, v, s, 13, a, 13, p, y, u);
    ThreeIs(b.e.store.d.attempts, p, y, g);
    LookupIs(b.e.store.d.attempts, y);
    SeqnoOf(a.e.store.d.attempts, p, y, u);
    NothingAsked(env, b, Resolving(TAKEN));
    Advance(env, v, s, 16, BACK, b);
    var w := IsResolved(env, b, 9, 16, y);
    z := Next(env, b, s[16]);
    ThreePut(b.e.store.d.attempts, p, y, g, w);
    ThreeKept(Upsert(b.e.store.d.attempts, w), p, w, g);
    ThreeIs(z.e.store.d.attempts, p, w, g);
    assert s[..17] == s;
    r, x := g, w;
  }

  // ---- that run is one of values in their ranges ----

  lemma ReturningArguments(i: nat)
    requires i < 17
    ensures TypedRuns.TypedArguments(Returning()[i])
    ensures Returning()[i].Reopening? ==> i == 0 || i == 12
  {
    hide Ask, Defining, Launch, DownReport, UpReport, TypedCalls.TypedRequest, TypedStore.TypedOptions, TypedCalls.TypedStamp, TypedCalls.TypedReplacement,
      RecordCodec.DefinitionOk;
    LaunchIsTyped(9, 1);
    LaunchIsTyped(9, 2);
    AskIs(LINK, 1);
    AskIs(LINK, 2);
    AskIsTyped(LINK, 1, ZERO_DIGEST);
    AskIsTyped(LINK, 2, ZERO_DIGEST);
    DefiningIsTyped(2, 2);
    DefiningIsTyped(3, 1);
    ReportsAreTyped(1, 3);
    LaunchesAre(9, 1);
    LaunchesAre(9, 2);
  }

  lemma LaunchesAre(table: nat, n: byte)
    ensures Launch(table, n).Reopening?
  {}

  lemma CompactedHolds(m: Medium, d: Lineage.DurableState)
    requires Compacted(m, d)
    ensures m.snapshot == Some(d)
  {}

  lemma LeadsTo(env: Env, events: seq<Event>, z: World)
    requires Leads(env, Virgin(Small(9)), events, BACK, z)
    ensures Run(env, Virgin(Small(9)), events) == z
  {}

  lemma VirginIsEmpty(o: Options)
    ensures Virgin(o).e.store.medium == EMPTY_MEDIUM && Virgin(o).e.tick == 0
  {
    hide Pairs;
  }

  /**
   * The run above is one that the engine completes: every argument is in its range, and wherever it
   * reopens, the snapshot on the medium, if there is one, is a state that the decoder accepts.
   */
  lemma ReturningCompletes(env: Env)
    requires TypedCalls.RealEnv(env)
    ensures TypedRuns.TypedRun(env, Virgin(Small(9)), Returning())
    ensures forall i :: 0 <= i < 17 && Returning()[i].Reopening? ==>
              var taken := Run(env, Virgin(Small(9)), Returning()[..i]).e.store.medium.snapshot;
              taken.Some? ==> Snapshot.StateOk(taken.value)
  {
    hide Returning, Run, Virgin, TypedCalls.RealEnv, TypedRuns.TypedRun, TypedRuns.TypedArguments, Snapshot.StateOk, Leads, Three, Compacted, TypedRuns.TypedWorld;
    var v, s := Virgin(Small(9)), Returning();
    VirginIsEmpty(Small(9));
    PrefixesAreTyped(env, 17);
    PrefixesAreTyped(env, 12);
    assert s[..17] == s;
    var c, d, x, g, u := GrantedAgain(env);
    LeadsTo(env, s[..12], c);
    CompactedHolds(c.e.store.medium, d);
    TakenIsOk(c, d);
    assert s[..0] == [];
    NothingRun(env, v);
    forall i | 0 <= i < 17 && s[i].Reopening? && Run(env, v, s[..i]).e.store.medium.snapshot.Some?
      ensures Snapshot.StateOk(Run(env, v, s[..i]).e.store.medium.snapshot.value)
    {
      ReturningArguments(i);
    }
  }

  lemma PrefixesAreTyped(env: Env, n: nat)
    requires TypedCalls.RealEnv(env) && n <= 17
    ensures TypedRuns.TypedRun(env, Virgin(Small(9)), Returning()[..n]) && TypedRuns.TypedWorld(Run(env, Virgin(Small(9)), Returning()[..n]))
  {
    hide Returning, Run, Virgin, TypedCalls.RealEnv, TypedRuns.TypedRun, TypedRuns.TypedArguments, TypedRuns.TypedWorld;
    var s := Returning()[..n];
    VirginIsEmpty(Small(9));
    TypedRuns.VirginTyped(Small(9));
    forall ev | ev in s ensures TypedRuns.TypedArguments(ev) {
      var i :| 0 <= i < |s| && s[i] == ev;
      ReturningArguments(i);
    }
    TypedRuns.ShortRunIsTyped(env, Virgin(Small(9)), s);
    TypedRuns.RunTyped(env, Virgin(Small(9)), s);
  }

  lemma NothingRun(env: Env, w: World)
    ensures Run(env, w, []) == w
  {}

  lemma TakenIsOk(c: World, d: Lineage.DurableState)
    requires TypedRuns.TypedWorld(c) && c.e.store.medium.snapshot == Some(d) && d.lastSeq <= 99
    ensures Snapshot.StateOk(d)
  {
    hide TypedStore.TypedDefinitions, TypedStore.TypedCounters, TypedStore.TypedTables, TypedCalls.TypedEngine, Snapshot.StateOk;
    TypedStore.TypedStateIsOk(d);
  }

  lemma SeqnoOf(a: seq<AttemptRecord>, x: AttemptRecord, y: AttemptRecord, u: AttemptRecord)
    requires Three(a, x, y, u)
    ensures y.seqno == 2 && y.subject == LINK
  {}

  // ---- a winner that retention drops ----

  /**
   * A table of one attempt. The link is granted its attempt 1, the applier commits it, and then a request
   * about the other link is declined: the record of that overflows the table, and retention drops
   * the first terminal attempt, which is the one that holds authority.
   */
  function Crowding(env: Env): (s: seq<Event>)
    ensures |s| == 6
  {
    [Launch(1, 1)] + Reports(1, 1) +
    [Calling(Requesting(Ask(LINK, 1)), WILLING),
     Calling(Applying(ApplicationReport(LINK, 1, 1, env.h.attempt(FABRIC, LINK, 1, 1), Boot16(9), true, [])), WILLING),
     Calling(Requesting(Ask(ALTERNATE, 1)), WILLING)]
  }

  /** The event that finds the table full. */
  const FULL := 5

  lemma CrowdingIs(env: Env)
    ensures var s := Crowding(env);
            && s[0] == Launch(1, 1) && s[1] == Reports(1, 1)[0] && s[2] == Reports(1, 1)[1] && s[3] == Calling(Requesting(Ask(LINK, 1)), WILLING)
            && s[4] == Calling(Applying(ApplicationReport(LINK, 1, 1, env.h.attempt(FABRIC, LINK, 1, 1), Boot16(9), true, [])), WILLING)
            && s[5] == Calling(Requesting(Ask(ALTERNATE, 1)), WILLING)
  {
    hide Ask, Launch, DownReport, UpReport;
  }

  lemma EvidentLater(e: EngineState, f: EngineState, generation: nat, topology: nat)
    requires Evident(e, generation, topology) && f.book == e.book && f.incarnation == e.incarnation && e.tick <= f.tick <= 100
    ensures Evident(f, generation, topology)
  {
    hide DownReport, UpReport;
  }

  lemma OneLeft(r: AttemptRecord, u: AttemptRecord)
    requires r.subject == LINK && u.subject == ALTERNATE && r.phase.Committed?
    ensures RetainAttempts(Upsert([r], u), 1) == [u]
  {
    DefiningIsSound(1, 1);
    LinkLessStrictTotal(LINK, ALTERNATE);
    assert LINK.link[0] < ALTERNATE.link[0];
    assert LinkLess(LINK, ALTERNATE) && !LinkLess(ALTERNATE, LINK);
    UpsertNew([r], u);
    assert [r] + [u] == [r, u] && [r, u][..1] == [r] && [r][..0] == [];
    assert Sorting.Sort([r], AttemptLess) == [r];
    assert Sorting.Insert(u, [r], AttemptLess) == [r] + Sorting.Insert(u, [], AttemptLess) by { assert [r][1..] == []; }
    assert Sorting.Sort([r, u], AttemptLess) == [r, u];
    assert FirstTerminal([r, u]) == 0;
    assert [r, u][..0] + [r, u][1..] == [u];
    assert DropTerminal([r, u], 1) == DropTerminal([u], 1) == [u];
  }

  lemma OneKept(x: AttemptRecord, y: AttemptRecord)
    requires SameKey(x, y)
    ensures RetainAttempts(Upsert([x], y), 1) == [y] && RetainAttempts(Upsert([], x), 1) == [x]
  {
    assert UniqueKeys([x]);
    UpsertAt([x], 0, y);
    UpsertNew([], x);
    assert [x][0 := y] == [y] && [] + [x] == [x];
  }

  /** The link's one attempt, granted and then applied. */
  lemma Applied1(env: Env) returns (z: World, r: AttemptRecord)
    ensures Leads(env, Virgin(Small(1)), Crowding(env)[..5], FULL, z) && Well(z, 1) && Within(z, 5)
    ensures z.e.store.d.topology == Defining(1, 1) && Evident(z.e, 1, 1)
    ensures z.e.store.d.attempts == [r] && OfPair(r, LINK, 1) && r.seqno == 1 && r.phase.Committed? && Active(z.e.store.d, r)
  {
    hide Next, Standing, Leads, Crowding, TopologyFault, Pairs, Defining, CountOf, Upsert, RetainAttempts, Virgin, Launch, Ask, Evident, Reports, Free, Boot16;
    CrowdingIs(env);
    var v, s := Virgin(Small(1)), Crowding(env);
    var a := Opens(env, 1);
    NoEvents(env, v, FULL);
    assert s[..0] == [];
    Advance(env, v, s, 0, FULL, v);
    assert Within(a, 1);
    var b := Reported(env, v, s, 1, FULL, a, 1, 1, 1, 1);
    NobodyIsFree(b.e.store.d, LINK, 1);
    EmptyCounts(LINK, 1);
    var c, x, y := GrantedNext(env, v, s, 3, FULL, b, 1, 3, 1, 1);
    OneKept(x, y);
    EvidentLater(b.e, c.e, 1, 1);
    assert Lookup(c.e.store.d.attempts, y.subject, y.seqno) == Some(y) by { OneFound(y); }
    NothingAsked(env, c, s[4].call);
    r := IsApplied(env, c, 1, 4, y);
    Advance(env, v, s, 4, FULL, c);
    z := Next(env, c, s[4]);
    OneKept(y, r);
    EvidentLater(c.e, z.e, 1, 1);
  }

  lemma EmptyCounts(subject: LinkKey, generation: nat)
    ensures CountOf([], subject, generation) == 0
  {}

  lemma OneFound(y: AttemptRecord)
    ensures Lookup([y], y.subject, y.seqno) == Some(y)
  {}

  lemma OtherIsFree(d: Lineage.DurableState, r: AttemptRecord)
    requires d.attempts == [r] && r.subject == LINK
    ensures Free(d, ALTERNATE, 1) && CountOf(d.attempts, ALTERNATE, 1) == 0 && Lookup(d.attempts, ALTERNATE, 1).None?
  {
    assert LINK.link[0] != ALTERNATE.link[0];
    assert [r][..0] == [];
  }

  lemma NoRoomStands(env: Env, w: World)
    requires Well(w, 1) && |w.e.store.d.attempts| == 1 && Lookup(w.e.store.d.attempts, ALTERNATE, 1).None?
    requires CountOf(w.e.store.d.attempts, ALTERNATE, 1) == 0 && Free(w.e.store.d, ALTERNATE, 1) && Defines(w.e.store.d.topology, ALTERNATE, 1)
    ensures !Standing(env, w, Calling(Requesting(Ask(ALTERNATE, 1)), WILLING))
  {
    hide CountOf, Free, Defines, TopologyFault, Lookup;
    FreeOpens(env, w.e, Ask(ALTERNATE, 1));
  }

  lemma ActiveIsSeen(d: Lineage.DurableState, r: AttemptRecord)
    requires d.attempts == [r] && Active(d, r) && OfPair(r, LINK, 1)
    ensures ActiveAuthority(d, LINK, 1) == Some(r)
  {
    assert r in d.attempts;
  }

  lemma OtherIsUnreported(e: EngineState)
    requires Evident(e, 1, 1)
    ensures Verdicts.Reporters(e.book.failure, ALTERNATE) == {}
  {
    assert LINK.link[0] != ALTERNATE.link[0];
  }

  /** The request that overflows the table. */
  lemma Overflows(env: Env) returns (before: World, z: World, r: AttemptRecord, u: AttemptRecord)
    ensures Leads(env, Virgin(Small(1)), Crowding(env)[..5], FULL, before) && Leads(env, Virgin(Small(1)), Crowding(env), FULL, z)
    ensures !Standing(env, before, Crowding(env)[FULL])
    ensures before.e.store.d.attempts == [r] && OfPair(r, LINK, 1) && r.seqno == 1 && Active(before.e.store.d, r)
    ensures Well(z, 1) && Within(z, 6) && z.e.store.d.topology == Defining(1, 1) && Evident(z.e, 1, 1) && z.e.epoch == before.e.epoch
    ensures z.e.store.d.attempts == [u] && u.subject == ALTERNATE && u.phase == Phase.Indeterminate
  {
    hide Next, Standing, Leads, Crowding, TopologyFault, Pairs, Defining, CountOf, Upsert, RetainAttempts, Virgin, Ask, Evident, Free, Verdicts.Reporters, Lookup,
      Defines;
    CrowdingIs(env);
    var v, s := Virgin(Small(1)), Crowding(env);
    before, r := Applied1(env);
    OtherIsFree(before.e.store.d, r);
    DefiningIsSound(1, 1);
    NoRoomStands(env, before);
    OtherIsUnreported(before.e);
    u := Declines(env, before, 1, 5, ALTERNATE, 1);
    OneLeft(r, u);
    Advance(env, v, s, 5, FULL, before);
    z := Next(env, before, s[5]);
    assert s[..6] == s;
    EvidentLater(before.e, z.e, 1, 1);
  }

  /**
   * One request to a full table is enough to lose a winner. With every other event under the premise
   * and no write failing, the attempt that held authority is gone from the table, though nothing revoked,
   * fenced or superseded it; and the very next request of the same boot is granted the same link
   * generation under the same sequence.
   */
  lemma RetentionForgetsTheWinner(env: Env) returns (before: World, z: World, r: AttemptRecord)
    ensures before == Run(env, Virgin(Small(1)), Crowding(env)[..FULL]) && z == Run(env, Virgin(Small(1)), Crowding(env))
    ensures SparedRun(env, Virgin(Small(1)), Crowding(env), FULL) && !Standing(env, before, Crowding(env)[FULL])
    ensures OfPair(r, LINK, 1) && ActiveAuthority(before.e.store.d, LINK, 1) == Some(r)
    ensures z.up && z.e.epoch == before.e.epoch && ActiveAuthority(z.e.store.d, LINK, 1).None?
    ensures var reply := RequestFailover(env, Fated(z.e, WILLING), Ask(LINK, 1)).1;
            GrantsAnew(reply) && reply.decision.subject == LINK && reply.decision.generation == 1 && reply.decision.attemptSeq == r.seqno
  {
    hide Next, Standing, Crowding, TopologyFault, Defining, CountOf, Virgin, Ask, Evident, Free, Run, SparedRun, RequestFailover, GrantsAnew, ActiveAuthority, Granted;
    var u;
    before, z, r, u := Overflows(env);
    ActiveIsSeen(before.e.store.d, r);
    NobodyIsFree(z.e.store.d, LINK, 1);
    NoneLeft(z.e.store.d, u);
    FreeMeans(z.e.store.d);
    AskIs(LINK, 1);
    var x, y := IsGranted(env, z, 1, 6, 1, 1, ZERO_DIGEST);
    SecondGrant(env, z);
  }

  lemma FreeMeans(d: Lineage.DurableState)
    requires Free(d, LINK, 1)
    ensures ActiveAuthority(d, LINK, 1).None?
  {}

  lemma NoneLeft(d: Lineage.DurableState, u: AttemptRecord)
    requires d.attempts == [u] && u.subject == ALTERNATE
    ensures CountOf(d.attempts, LINK, 1) == 0
  {
    assert LINK.link[0] != ALTERNATE.link[0];
    assert [u][..0] == [];
  }

  lemma SecondGrant(env: Env, z: World)
    requires CountOf(z.e.store.d.attempts, LINK, 1) == 0 && GrantsAnew(RequestFailover(env, Fated(z.e, WILLING), Ask(LINK, 1)).1)
    ensures var d := RequestFailover(env, Fated(z.e, WILLING), Ask(LINK, 1)).1.decision;
            d.subject == LINK && d.generation == 1 && d.attemptSeq == 1
  {
    hide RequestFailover, GrantsAnew, GrantConditions, CountOf, Selected;
    GrantMeans(env, Fated(z.e, WILLING), Ask(LINK, 1));
  }
}
