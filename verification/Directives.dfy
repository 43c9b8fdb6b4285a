/** What the applier is told to do: which attempts are listed, what each entry says, and in what order. */
module Directives {
  import opened Basics
  import opened Records
  import opened Sorting
  import opened Lineage
  import opened Table
  import opened Protocol
  import opened Retention

  /** The attempt waits for the applier: authorized, with a replacement to switch to. */
  predicate Awaits(r: AttemptRecord) { r.phase == Authorized && r.replacement.fabric != [] && r.replacement.link != [] }

  /** The directive tells to replace the attempt's subject by its replacement, under the attempt's identity and authority. */
  predicate Directs(x: Directive, r: AttemptRecord, tick: nat) {
    && x.subject == r.subject && x.generation == r.generation
    && x.replacement == r.replacement && x.replacementGeneration == r.replacementGeneration
    && x.attemptSeq == r.seqno && x.attemptId == r.attemptId && x.authority == r.authority && x.issuedTick == tick
  }

  /** Earlier by subject, and under one subject by sequence. */
  predicate Earlier(subject: LinkKey, seqno: nat, subject': LinkKey, seqno': nat) {
    LinkLess(subject, subject') || (subject == subject' && seqno < seqno')
  }

  function Waiting(a: seq<AttemptRecord>): set<int> {
    set i | 0 <= i < |a| && Awaits(a[i])
  }

  lemma WaitingStep(a: seq<AttemptRecord>)
    requires a != []
    ensures var n := |a| - 1; Waiting(a) == Waiting(a[..n]) + (if Awaits(a[n]) then {n} else {}) && n !in Waiting(a[..n])
  {
    hide Awaits;
  }

  lemma {:induction false} FilteredSize(a: seq<AttemptRecord>)
    ensures |Filtered(a)| == |Waiting(a)|
    decreases |a|
  {
    hide Waiting;
    if a == [] {
      NoneWaits();
    } else {
      var n := |a| - 1;
      FilteredSize(a[..n]);
      WaitingStep(a);
      assert Pending(a[n]) == Awaits(a[n]);
    }
  }

  lemma NoneWaits()
    ensures Waiting([]) == {}
  {}

  lemma {:induction false} FilteredWithin(a: seq<AttemptRecord>)
    ensures multiset(Filtered(a)) <= multiset(a)
    decreases |a|
  {
    hide Pending;
    if a != [] {
      var n := |a| - 1;
      FilteredWithin(a[..n]);
      assert a == a[..n] + [a[n]];
    }
  }

  lemma {:induction false} KeyedOnce(a: seq<AttemptRecord>, x: AttemptRecord)
    requires UniqueKeys(a)
    ensures multiset(a)[x] <= 1
    decreases |a|
  {
    if a != [] {
      var n := |a| - 1;
      KeyedOnce(a[..n], x);
      assert a == a[..n] + [a[n]];
      if a[n] == x { assert x !in a[..n]; }
    }
  }

  /** The pending records: those that wait, strictly ordered. */
  lemma RecordsAre(e: EngineState)
    requires UniqueKeys(e.store.d.attempts) && !e.closed
    ensures |PendingRecords(e)| == |Waiting(e.store.d.attempts)|
    ensures forall r :: r in PendingRecords(e) <==> r in e.store.d.attempts && Awaits(r)
    ensures Ascending(PendingRecords(e))
  {
    hide Sort;
    var a := e.store.d.attempts;
    var waiting, records := Filtered(a), PendingRecords(e);
    AttemptOrder();
    SortIsSorted(waiting, AttemptLess);
    FilteredSize(a);
    FilteredWithin(a);
    forall r ensures r in records <==> r in a && Awaits(r) {
      assert r in multiset(records) <==> r in multiset(waiting);
      assert r in waiting <==> r in a && Pending(r);
    }
    forall i, j | 0 <= i < j < |records|
      ensures Earlier(records[i].subject, records[i].seqno, records[j].subject, records[j].seqno)
    {
      assert !AttemptLess(records[j], records[i]);
      LinkLessStrictTotal(records[i].subject, records[j].subject);
      if SameKey(records[i], records[j]) {
        Twins(a, records[i], records[j]);
        TwiceCounts(records, i, j);
        KeyedOnce(a, records[i]);
        assert false;
      }
    }
  }

  lemma Twins(a: seq<AttemptRecord>, x: AttemptRecord, y: AttemptRecord)
    requires UniqueKeys(a) && x in a && y in a && SameKey(x, y)
    ensures x == y
  {
    LookupIs(a, x);
    LookupIs(a, y);
  }

  function Least(a: nat, b: nat): nat { if a < b then a else b }

  /**
   * The listing, in the table's own terms. Its length is the number of attempts that wait, cut to the
   * caller's bound and the engine's; its entries are in order and each directs one of them; and an
   * attempt that waits is directed exactly once, unless a bound cut the list, and then everything
   * listed comes before it. A closed engine lists nothing.
   */
  ghost predicate Listing(e: EngineState, n: nat, s: seq<Directive>) {
    var bound := Least(n, e.options.limits.maxDirectives);
    && (e.closed ==> s == [])
    && (!e.closed ==> |s| == Least(|Waiting(e.store.d.attempts)|, bound))
    && InOrder(s)
    && OnlyWaiting(e.store.d.attempts, s, e.tick)
    && (!e.closed ==> NoneMissing(e.store.d.attempts, s, e.tick, bound))
  }

  ghost predicate InOrder(s: seq<Directive>) {
    forall i, j :: 0 <= i < j < |s| ==> Earlier(s[i].subject, s[i].attemptSeq, s[j].subject, s[j].attemptSeq)
  }

  ghost predicate OnlyWaiting(a: seq<AttemptRecord>, s: seq<Directive>, tick: nat) {
    forall i :: 0 <= i < |s| ==> DirectsOne(s[i], a, tick)
  }

  ghost predicate DirectsOne(x: Directive, a: seq<AttemptRecord>, tick: nat) {
    exists r :: r in a && Awaits(r) && Directs(x, r, tick)
  }

  ghost predicate NoneMissing(a: seq<AttemptRecord>, s: seq<Directive>, tick: nat, bound: nat) {
    forall r :: r in a && Awaits(r) ==> DirectedOnce(s, r, tick) || (|s| == bound && AllEarlier(s, r))
  }

  lemma ListingIs(e: EngineState, n: nat)
    requires UniqueKeys(e.store.d.attempts)
    ensures Listing(e, n, PendingDirectives(e, n))
  {
    hide PendingRecords, Waiting, Ascending, Awaits, InOrder, OnlyWaiting, NoneMissing;
    if !e.closed {
      RecordsAre(e);
      var s := PendingDirectives(e, n);
      var records := PendingRecords(e);
      ListedInOrder(records, s, e.tick);
      ListedOnly(e.store.d.attempts, records, s, e.tick);
      ListedAll(e.store.d.attempts, records, s, e.tick, Least(n, e.options.limits.maxDirectives));
    } else {
      ClosedListsNothing(e, n);
    }
  }

  lemma ClosedListsNothing(e: EngineState, n: nat)
    requires e.closed
    ensures PendingDirectives(e, n) == [] && InOrder([]) && OnlyWaiting(e.store.d.attempts, [], e.tick)
  {}

  ghost predicate Ascending(records: seq<AttemptRecord>) {
    forall i, j :: 0 <= i < j < |records| ==> Earlier(records[i].subject, records[i].seqno, records[j].subject, records[j].seqno)
  }

  /** The list is the directives of the first records. */
  ghost predicate Lists(records: seq<AttemptRecord>, s: seq<Directive>, tick: nat) {
    |s| <= |records| && forall i :: 0 <= i < |s| ==> s[i] == DirectiveOf(records[i], tick)
  }

  lemma ListedInOrder(records: seq<AttemptRecord>, s: seq<Directive>, tick: nat)
    requires Ascending(records) && Lists(records, s, tick)
    ensures InOrder(s)
  {
    hide Earlier;
  }

  lemma ListedOnly(a: seq<AttemptRecord>, records: seq<AttemptRecord>, s: seq<Directive>, tick: nat)
    requires Lists(records, s, tick) && forall r :: r in records <==> r in a && Awaits(r)
    ensures OnlyWaiting(a, s, tick)
  {
    hide Awaits;
    forall i | 0 <= i < |s| ensures DirectsOne(s[i], a, tick) {
      var r := records[i];
      assert r in records;
      assert r in a && Awaits(r) && Directs(s[i], r, tick);
    }
  }

  lemma ListedAll(a: seq<AttemptRecord>, records: seq<AttemptRecord>, s: seq<Directive>, tick: nat, bound: nat)
    requires Ascending(records) && Lists(records, s, tick) && |s| == Least(|records|, bound)
    requires forall r :: r in records <==> r in a && Awaits(r)
    ensures NoneMissing(a, s, tick, bound)
  {
    hide Awaits, Ascending, DirectedOnce, AllEarlier, Lists;
    forall r | r in a && Awaits(r) ensures DirectedOnce(s, r, tick) || (|s| == bound && AllEarlier(s, r)) {
      assert r in records;
      OnceOrCut(records, s, tick, r);
    }
  }

  lemma OnceOrCut(records: seq<AttemptRecord>, s: seq<Directive>, tick: nat, r: AttemptRecord)
    requires Ascending(records) && Lists(records, s, tick) && r in records
    ensures DirectedOnce(s, r, tick) || (|s| < |records| && AllEarlier(s, r))
  {
    hide Earlier;
    var k :| 0 <= k < |records| && records[k] == r;
    if k < |s| {
      forall i | 0 <= i < |s| && i != k ensures !Directs(s[i], r, tick) {
        NotEarlier(records[i].subject, records[i].seqno);
      }
      assert Directs(s[k], r, tick);
    }
  }

  lemma NotEarlier(subject: LinkKey, seqno: nat)
    ensures !Earlier(subject, seqno, subject, seqno)
  {
    LinkLessStrictTotal(subject, subject);
  }

  ghost predicate DirectedOnce(s: seq<Directive>, r: AttemptRecord, tick: nat) {
    exists k :: 0 <= k < |s| && Directs(s[k], r, tick) && forall i :: 0 <= i < |s| && i != k ==> !Directs(s[i], r, tick)
  }

  ghost predicate AllEarlier(s: seq<Directive>, r: AttemptRecord) {
    forall i :: 0 <= i < |s| ==> Earlier(s[i].subject, s[i].attemptSeq, r.subject, r.seqno)
  }
}
