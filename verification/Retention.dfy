/** What the retention of attempts may drop. */
module Retention {
  import opened Basics
  import opened Records
  import opened Sorting
  import opened Lineage

  lemma AttemptOrder()
    ensures StrictOrder(AttemptLess)
  {
    forall a: AttemptRecord ensures !AttemptLess(a, a) {
      LinkLessStrictTotal(a.subject, a.subject);
    }
    forall a: AttemptRecord, b: AttemptRecord, c: AttemptRecord
      ensures AttemptLess(a, b) && AttemptLess(b, c) ==> AttemptLess(a, c)
      ensures AttemptLess(a, c) ==> AttemptLess(a, b) || AttemptLess(b, c)
    {
      LinkOrderCases(a.subject, b.subject, c.subject);
    }
  }

  lemma FirstTerminalSplits(a: seq<AttemptRecord>)
    ensures FirstTerminal(a) < |a| ==> Terminal(a[FirstTerminal(a)].phase)
    ensures FirstTerminal(a) == |a| ==> forall r :: r in a ==> !Terminal(r.phase)
  {}

  lemma {:induction false} DropKeepsLive(a: seq<AttemptRecord>, max: nat)
    ensures forall r :: r in a && !Terminal(r.phase) ==> r in DropTerminal(a, max)
    ensures forall r :: r in DropTerminal(a, max) ==> r in a
    ensures |DropTerminal(a, max)| > max ==> forall r :: r in DropTerminal(a, max) ==> !Terminal(r.phase)
    ensures |a| > max ==> |DropTerminal(a, max)| >= max
    decreases |a|
  {
    var i := FirstTerminal(a);
    FirstTerminalSplits(a);
    if |a| > max && i < |a| {
      var rest := a[..i] + a[i + 1..];
      DropKeepsLive(rest, max);
      assert a == a[..i] + [a[i]] + a[i + 1..];
    }
  }

  /**
   * Retention drops terminal attempts only, adds nothing, never goes below its bound, and stays above it
   * only when nothing terminal is left to drop.
   */
  lemma RetentionKeepsLive(a: seq<AttemptRecord>, max: nat)
    ensures forall r :: r in a && !Terminal(r.phase) ==> r in RetainAttempts(a, max)
    ensures forall r :: r in RetainAttempts(a, max) ==> r in a
    ensures |RetainAttempts(a, max)| > max ==> forall r :: r in RetainAttempts(a, max) ==> !Terminal(r.phase)
    ensures |a| > max ==> |RetainAttempts(a, max)| >= max
  {
    hide DropTerminal, Sort;
    AttemptOrder();
    var sorted := Sort(a, AttemptLess);
    SortIsSorted(a, AttemptLess);
    DropKeepsLive(sorted, max);
    forall r | r in a ensures r in sorted { assert r in multiset(sorted); }
    forall r | r in sorted ensures r in a { assert r in multiset(a); }
  }

  // ---- which ones go ----

  /** Of `all`, the `kept` are the `max` newest, oldest first; nothing dropped is newer than anything kept. */
  ghost predicate NewestOf(all: seq<FenceRecord>, kept: seq<FenceRecord>, max: nat) {
    if |all| <= max then kept == all
    else
      && |kept| == max
      && (forall i, j :: 0 <= i < j < max ==> kept[i].seqno <= kept[j].seqno)
      && exists dropped: seq<FenceRecord> ::
           && multiset(dropped) + multiset(kept) == multiset(all)
           && forall x, y :: x in dropped && y in kept ==> x.seqno <= y.seqno
  }

  lemma NewestFencesStay(f: seq<FenceRecord>, max: nat)
    ensures NewestOf(f, RetainFences(f, max), max)
  {
    hide Sort;
    if |f| > max {
      SortIsSorted(f, FenceLess);
      var sorted := Sort(f, FenceLess);
      var dropped, kept := sorted[..|f| - max], sorted[|f| - max..];
      assert sorted == dropped + kept;
      assert multiset(dropped) + multiset(kept) == multiset(f);
      forall x, y | x in dropped && y in kept ensures x.seqno <= y.seqno {
        var i :| 0 <= i < |dropped| && dropped[i] == x;
        var j :| 0 <= j < |kept| && kept[j] == y;
        assert !FenceLess(sorted[|dropped| + j], sorted[i]);
      }
      forall i, j | 0 <= i < j < max ensures kept[i].seqno <= kept[j].seqno {
        assert !FenceLess(sorted[|dropped| + j], sorted[|dropped| + i]);
      }
    }
  }

  /** Of the index entries the last ones written stay, in their order. */
  lemma LastEntriesStay(e: seq<IdempotencyEntry>, max: nat)
    ensures var kept := RetainEntries(e, max);
            && |kept| == (if |e| <= max then |e| else max)
            && forall i :: 0 <= i < |kept| ==> kept[i] == e[|e| - |kept| + i]
  {}

  /** Not after: earlier by subject and sequence, or under the same key. */
  predicate NotAfter(x: AttemptRecord, y: AttemptRecord) {
    AttemptLess(x, y) || (x.subject == y.subject && x.seqno == y.seqno)
  }

  /** What is dropped and what is kept: ended attempts go first by subject and sequence. */
  ghost predicate FirstGo(all: seq<AttemptRecord>, dropped: seq<AttemptRecord>, kept: seq<AttemptRecord>) {
    && multiset(dropped) + multiset(kept) == multiset(all)
    && (forall x :: x in dropped ==> Terminal(x.phase))
    && (forall x, y :: x in dropped && y in kept && Terminal(y.phase) ==> NotAfter(x, y))
  }

  lemma WithoutOne(a: seq<AttemptRecord>, i: nat)
    requires i < |a|
    ensures var rest := a[..i] + a[i + 1..];
            && multiset(rest) + multiset{a[i]} == multiset(a)
            && forall p :: 0 <= p < |rest| ==> rest[p] == a[if p < i then p else p + 1]
    ensures Ordered(a, AttemptLess) ==> Ordered(a[..i] + a[i + 1..], AttemptLess)
  {
    hide AttemptLess;
    assert a == a[..i] + [a[i]] + a[i + 1..];
  }

  lemma FirstBefore(a: seq<AttemptRecord>, y: AttemptRecord)
    requires Ordered(a, AttemptLess) && FirstTerminal(a) < |a| && Terminal(y.phase)
    requires y in a[..FirstTerminal(a)] + a[FirstTerminal(a) + 1..]
    ensures NotAfter(a[FirstTerminal(a)], y)
  {
    hide AttemptLess;
    var i := FirstTerminal(a);
    var k :| 0 <= k < |a| && a[k] == y && k != i;
    if k < i { FirstIsTerminal(a, k); }
    NotLess(a[i], y);
  }

  lemma DropOne(a: seq<AttemptRecord>, first: AttemptRecord, rest: seq<AttemptRecord>, dropped: seq<AttemptRecord>, kept: seq<AttemptRecord>)
    requires multiset(rest) + multiset{first} == multiset(a) && FirstGo(rest, dropped, kept) && Terminal(first.phase)
    requires forall y :: y in kept && Terminal(y.phase) ==> NotAfter(first, y)
    ensures FirstGo(a, [first] + dropped, kept)
  {
    hide NotAfter;
    assert multiset([first] + dropped) == multiset{first} + multiset(dropped);
  }

  lemma {:induction false} DropFirst(a: seq<AttemptRecord>, max: nat) returns (dropped: seq<AttemptRecord>)
    requires Ordered(a, AttemptLess)
    ensures FirstGo(a, dropped, DropTerminal(a, max))
    decreases |a|
  {
    hide AttemptLess, FirstGo, NotAfter, Ordered;
    dropped := [];
    var i := FirstTerminal(a);
    FirstTerminalSplits(a);
    NoneGo(a);
    if |a| > max && i < |a| {
      var rest := a[..i] + a[i + 1..];
      WithoutOne(a, i);
      dropped := DropFirst(rest, max);
      DropKeepsLive(rest, max);
      forall y | y in DropTerminal(rest, max) && Terminal(y.phase) ensures NotAfter(a[i], y) { FirstBefore(a, y); }
      DropOne(a, a[i], rest, dropped, DropTerminal(rest, max));
      dropped := [a[i]] + dropped;
    }
  }

  lemma {:induction false} FirstIsTerminal(a: seq<AttemptRecord>, k: nat)
    requires k < FirstTerminal(a)
    ensures !Terminal(a[k].phase)
    decreases |a|
  {
    if k > 0 { FirstIsTerminal(a[1..], k - 1); }
  }

  lemma NotLess(x: AttemptRecord, y: AttemptRecord)
    requires !AttemptLess(y, x)
    ensures NotAfter(x, y)
  {
    LinkLessStrictTotal(x.subject, y.subject);
  }

  /** Retention passes over what has not ended and drops the rest from the front of the order by subject and sequence. */
  lemma FirstAttemptsGo(a: seq<AttemptRecord>, max: nat) returns (dropped: seq<AttemptRecord>)
    ensures FirstGo(a, dropped, RetainAttempts(a, max))
  {
    hide DropTerminal, Sort, FirstGo;
    if |a| <= max {
      dropped := [];
      NoneGo(a);
    } else {
      AttemptOrder();
      SortIsSorted(a, AttemptLess);
      dropped := DropFirst(Sort(a, AttemptLess), max);
      SameAll(Sort(a, AttemptLess), a, dropped, DropTerminal(Sort(a, AttemptLess), max));
    }
  }

  lemma NoneGo(a: seq<AttemptRecord>)
    ensures FirstGo(a, [], a)
  {}

  lemma SameAll(a: seq<AttemptRecord>, b: seq<AttemptRecord>, dropped: seq<AttemptRecord>, kept: seq<AttemptRecord>)
    requires FirstGo(a, dropped, kept) && multiset(a) == multiset(b)
    ensures FirstGo(b, dropped, kept)
  {}
}
