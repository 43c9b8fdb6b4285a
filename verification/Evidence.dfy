/** The volatile evidence tables: who may report, what is retained, and what it establishes. */
module Evidence {
  import opened Basics
  import opened Reasons
  import opened Records

  datatype Status = Done | Fault(outcome: Outcome, code: nat)

  datatype Publisher = Publisher(
    incarnation: Incarnation,
    epoch: nat,
    highestSeq: nat,
    firstSeenTick: nat,
    accepted: nat)

  /** An observation as retained, with the receipt the coordinator stamped on it. */
  datatype Retained<+R> = Retained(report: R, digest: Digest, receipt: Receipt)

  datatype Receipt = Receipt(tick: nat, epoch: nat, coordinator: Incarnation)

  /** The place of what one publisher reported about one link. */
  datatype Place = Place(link: LinkKey, publisher: Name)

  /** The source nests a map per publisher inside a map per link; an empty inner map is not told apart from an absent one. */
  type Table<R> = map<Place, Retained<R>>

  /** `entries` is the source's running counter: an integer, so that an underflow would show. */
  datatype Book = Book(
    publishers: map<Name, Publisher>,
    failure: Table<FailureReport>,
    replacement: Table<ReplacementReport>,
    lastSeq: map<Place, nat>,
    entries: int)

  const EMPTY_BOOK := Book(map[], map[], map[], map[], 0)

  datatype EvidenceLimits = EvidenceLimits(maxPublishers: nat, maxEntries: nat)

  // ---- bookkeeping ----

  /** The places a publisher has filled. */
  function Holding<V>(m: map<Place, V>, p: Name): set<Place> {
    set x | x in m && x.publisher == p
  }

  function Forget<V>(m: map<Place, V>, p: Name): map<Place, V> {
    m - Holding(m, p)
  }

  /** Registers the publisher, or retires what its earlier incarnation left. */
  function Admit(b: Book, stamp: Stamp, tick: nat, limits: EvidenceLimits): (Book, Status) {
    var p := stamp.publisher;
    if p !in b.publishers then
      if |b.publishers| >= limits.maxPublishers then (b, Fault(Outcome.Exhausted, LIMIT_EXCEEDED))
      else (b.(publishers := b.publishers[p := Publisher(stamp.incarnation, stamp.epoch, 0, tick, 0)]), Done)
    else if b.publishers[p].incarnation == stamp.incarnation then (b, Done)
    else if stamp.epoch < b.publishers[p].epoch then (b, Fault(Outcome.Stale, PUBLISHER_MISMATCH))
    else if stamp.epoch == b.publishers[p].epoch then (b, Fault(Outcome.Conflict, PUBLISHER_MISMATCH))
    else
      (Book(b.publishers[p := b.publishers[p].(incarnation := stamp.incarnation, epoch := stamp.epoch)],
            Forget(b.failure, p), Forget(b.replacement, p), Forget(b.lastSeq, p),
            b.entries - |Holding(b.failure, p)| - |Holding(b.replacement, p)|),
       Done)
  }

  predicate Advances(b: Book, place: Place, stamp: Stamp) {
    place in b.lastSeq ==> b.lastSeq[place] < stamp.seqno
  }

  /** Notes the accepted sequence in the per-place and the per-publisher registers. */
  function Accept(b: Book, place: Place, stamp: Stamp, replacing: bool): Book
    requires place.publisher in b.publishers
  {
    var p := place.publisher;
    b.(lastSeq := b.lastSeq[place := stamp.seqno],
       entries := if replacing then b.entries else b.entries + 1,
       publishers := b.publishers[p := b.publishers[p].(highestSeq := stamp.seqno, accepted := b.publishers[p].accepted + 1)])
  }

  /** An admitted failure observation. */
  function RetainFailure(b: Book, r: FailureReport, digest: Digest, receipt: Receipt, limits: EvidenceLimits): (Book, Status)
    requires r.stamp.publisher in b.publishers
  {
    var place := Place(r.subject, r.stamp.publisher);
    if !Advances(b, place, r.stamp) then (b, Fault(Outcome.Stale, SESSION_SEQUENCE_REPLAYED))
    else if place !in b.failure && b.entries >= limits.maxEntries then (b, Fault(Outcome.Exhausted, LIMIT_EXCEEDED))
    else (Accept(b.(failure := b.failure[place := Retained(r, digest, receipt)]), place, r.stamp, place in b.failure), Done)
  }

  function RetainReplacement(b: Book, r: ReplacementReport, digest: Digest, receipt: Receipt, limits: EvidenceLimits): (Book, Status)
    requires r.stamp.publisher in b.publishers
  {
    var place := Place(r.candidate, r.stamp.publisher);
    if !Advances(b, place, r.stamp) then (b, Fault(Outcome.Stale, SESSION_SEQUENCE_REPLAYED))
    else if place !in b.replacement && b.entries >= limits.maxEntries then (b, Fault(Outcome.Exhausted, LIMIT_EXCEEDED))
    else (Accept(b.(replacement := b.replacement[place := Retained(r, digest, receipt)]), place, r.stamp, place in b.replacement), Done)
  }

  datatype Observation = OfSubject(failure: FailureReport) | OfCandidate(replacement: ReplacementReport)

  function LinkOf(o: Observation): LinkKey { if o.OfSubject? then o.failure.subject else o.replacement.candidate }

  function StampOf(o: Observation): Stamp { if o.OfSubject? then o.failure.stamp else o.replacement.stamp }

  function GenerationsOf(o: Observation): (nat, nat) {
    if o.OfSubject? then (o.failure.generation, o.failure.topologyGeneration)
    else (o.replacement.generation, o.replacement.topologyGeneration)
  }

  /** What is refused before the clock moves. */
  function ShapeFault(fabric: Name, o: Observation): Option<(Outcome, nat)> {
    if LinkOf(o).fabric != fabric then Some((Outcome.NotFound, UNKNOWN_FABRIC))
    else if LinkOf(o).link == [] || GenerationsOf(o).0 == 0 || GenerationsOf(o).1 == 0 then Some((Outcome.Invalid, NULL_FIELD))
    else if StampOf(o).publisher == [] || StampOf(o).incarnation == ZERO_INCARNATION then Some((Outcome.Invalid, NULL_FIELD))
    else None
  }

  /** One well-shaped observation against the book. */
  function Observe(b: Book, h: Hashes, o: Observation, receipt: Receipt, limits: EvidenceLimits): (Book, Status) {
    var (admitted, status) := Admit(b, StampOf(o), receipt.tick, limits);
    if status.Fault? then (b, status)
    else match o
      case OfSubject(r) => RetainFailure(admitted, r, h.failure(r), receipt, limits)
      case OfCandidate(r) => RetainReplacement(admitted, r, h.replacement(r), receipt, limits)
  }

  // ---- the bookkeeping invariant ----

  /** A retained observation's stamp is its place's publisher's, current, and its receipt is ours and not in the future. */
  predicate Fresh(b: Book, x: Place, stamp: Stamp, receipt: Receipt, now: Receipt) {
    && x.publisher in b.publishers
    && stamp.publisher == x.publisher
    && stamp.incarnation == b.publishers[x.publisher].incarnation
    && x in b.lastSeq && stamp.seqno <= b.lastSeq[x]
    && receipt.tick <= now.tick
    && receipt.coordinator == now.coordinator
  }

  predicate Counted(b: Book, limits: EvidenceLimits) {
    && b.entries == |b.failure| + |b.replacement|
    && b.entries <= limits.maxEntries
    && |b.publishers| <= limits.maxPublishers
  }

  predicate FailuresFresh(b: Book, now: Receipt) {
    forall x :: x in b.failure ==>
      x.link == b.failure[x].report.subject && Fresh(b, x, b.failure[x].report.stamp, b.failure[x].receipt, now)
  }

  predicate ReplacementsFresh(b: Book, now: Receipt) {
    forall x :: x in b.replacement ==>
      x.link == b.replacement[x].report.candidate && Fresh(b, x, b.replacement[x].report.stamp, b.replacement[x].receipt, now)
  }

  /** What holds of the book at the clock reading `now`, whatever was observed so far. */
  predicate Sound(b: Book, now: Receipt, limits: EvidenceLimits) {
    Counted(b, limits) && FailuresFresh(b, now) && ReplacementsFresh(b, now)
  }

  lemma {:induction false} KeysSize<K, V>(m: map<K, V>)
    ensures |m.Keys| == |m|
    decreases |m|
  {
    if m.Keys != {} {
      var k :| k in m.Keys;
      KeysSize(m - {k});
      assert m == (m - {k})[k := m[k]];
      assert m.Keys == (m - {k}).Keys + {k};
    }
  }

  /** Forgetting a publisher removes exactly the places it had filled. */
  lemma ForgetCounts<V>(m: map<Place, V>, p: Name)
    ensures |Forget(m, p)| == |m| - |Holding(m, p)|
  {
    KeysSize(m);
    KeysSize(Forget(m, p));
    assert Forget(m, p).Keys == m.Keys - Holding(m, p);
    assert Holding(m, p) <= m.Keys;
  }

  lemma PutCounts<K, V>(m: map<K, V>, k: K, v: V)
    ensures |m[k := v]| == |m| + (if k in m then 0 else 1)
  {
    assert m[k := v].Keys == m.Keys + {k};
    KeysSize(m);
    KeysSize(m[k := v]);
  }

  lemma AdmitCounts(b: Book, stamp: Stamp, tick: nat, limits: EvidenceLimits)
    requires Counted(b, limits)
    ensures Counted(Admit(b, stamp, tick, limits).0, limits)
  {
    hide Holding;
    var p := stamp.publisher;
    if p !in b.publishers {
      PutCounts(b.publishers, p, Publisher(stamp.incarnation, stamp.epoch, 0, tick, 0));
    } else {
      PutCounts(b.publishers, p, b.publishers[p].(incarnation := stamp.incarnation, epoch := stamp.epoch));
      ForgetCounts(b.failure, p);
      ForgetCounts(b.replacement, p);
    }
  }

  /** Admission touches only the places of a publisher that restarted, and those it empties. */
  lemma AdmitFresh(b: Book, stamp: Stamp, limits: EvidenceLimits, x: Place, held: Stamp, receipt: Receipt, now: Receipt)
    requires Fresh(b, x, held, receipt, now)
    ensures var after := Admit(b, stamp, now.tick, limits).0;
            Fresh(after, x, held, receipt, now) || (x !in after.failure && x !in after.replacement)
  {}

  lemma AdmitRestricts(b: Book, stamp: Stamp, tick: nat, limits: EvidenceLimits)
    ensures var after := Admit(b, stamp, tick, limits).0;
            && (forall x :: x in after.failure ==> x in b.failure && after.failure[x] == b.failure[x])
            && (forall x :: x in after.replacement ==> x in b.replacement && after.replacement[x] == b.replacement[x])
  {}

  /** Admission keeps the book sound. */
  lemma AdmitKeepsSound(b: Book, stamp: Stamp, now: Receipt, limits: EvidenceLimits)
    requires Sound(b, now, limits)
    ensures Sound(Admit(b, stamp, now.tick, limits).0, now, limits)
  {
    hide Admit, Fresh, Counted;
    AdmitCounts(b, stamp, now.tick, limits);
    AdmitRestricts(b, stamp, now.tick, limits);
    var after := Admit(b, stamp, now.tick, limits).0;
    forall x | x in after.failure ensures Fresh(after, x, after.failure[x].report.stamp, after.failure[x].receipt, now) {
      AdmitFresh(b, stamp, limits, x, b.failure[x].report.stamp, b.failure[x].receipt, now);
    }
    forall x | x in after.replacement ensures Fresh(after, x, after.replacement[x].report.stamp, after.replacement[x].receipt, now) {
      AdmitFresh(b, stamp, limits, x, b.replacement[x].report.stamp, b.replacement[x].receipt, now);
    }
  }

  /** A refused publisher leaves the book as it was. */
  lemma RefusedAdmits(b: Book, stamp: Stamp, tick: nat, limits: EvidenceLimits)
    requires Admit(b, stamp, tick, limits).1.Fault?
    ensures Admit(b, stamp, tick, limits).0 == b
  {}

  /** After admission the publisher's registered incarnation is the stamp's. */
  lemma Admitted(b: Book, stamp: Stamp, tick: nat, limits: EvidenceLimits)
    requires Admit(b, stamp, tick, limits).1.Done?
    ensures stamp.publisher in Admit(b, stamp, tick, limits).0.publishers
    ensures Admit(b, stamp, tick, limits).0.publishers[stamp.publisher].incarnation == stamp.incarnation
  {}

  lemma AcceptFresh(b: Book, place: Place, stamp: Stamp, replacing: bool, x: Place, held: Stamp, receipt: Receipt, now: Receipt)
    requires place.publisher in b.publishers && Fresh(b, x, held, receipt, now) && Advances(b, place, stamp)
    ensures Fresh(Accept(b, place, stamp, replacing), x, held, receipt, now)
  {}

  lemma NewestFresh(b: Book, place: Place, stamp: Stamp, replacing: bool, now: Receipt)
    requires place.publisher in b.publishers && b.publishers[place.publisher].incarnation == stamp.incarnation
    requires place.publisher == stamp.publisher
    ensures Fresh(Accept(b, place, stamp, replacing), place, stamp, now, now)
  {}

  lemma FreshReads(b: Book, c: Book)
    requires b.publishers == c.publishers && b.lastSeq == c.lastSeq
    ensures forall x, held, receipt, now :: Fresh(b, x, held, receipt, now) == Fresh(c, x, held, receipt, now)
  {}

  lemma RetainFailureKeepsSound(b: Book, r: FailureReport, digest: Digest, now: Receipt, limits: EvidenceLimits)
    requires Sound(b, now, limits)
    requires r.stamp.publisher in b.publishers && b.publishers[r.stamp.publisher].incarnation == r.stamp.incarnation
    ensures Sound(RetainFailure(b, r, digest, now, limits).0, now, limits)
  {
    hide Fresh;
    var p := r.stamp.publisher;
    var place := Place(r.subject, p);
    if RetainFailure(b, r, digest, now, limits).1.Done? {
      PutCounts(b.publishers, p, b.publishers[p].(highestSeq := r.stamp.seqno, accepted := b.publishers[p].accepted + 1));
      PutCounts(b.failure, place, Retained(r, digest, now));
      var put := b.(failure := b.failure[place := Retained(r, digest, now)]);
      var after := Accept(put, place, r.stamp, place in b.failure);
      FreshReads(b, put);
      NewestFresh(put, place, r.stamp, place in b.failure, now);
      forall x | x in after.failure ensures Fresh(after, x, after.failure[x].report.stamp, after.failure[x].receipt, now) {
        if x != place { AcceptFresh(put, place, r.stamp, place in b.failure, x, b.failure[x].report.stamp, b.failure[x].receipt, now); }
      }
      forall x | x in after.replacement ensures Fresh(after, x, after.replacement[x].report.stamp, after.replacement[x].receipt, now) {
        AcceptFresh(put, place, r.stamp, place in b.failure, x, b.replacement[x].report.stamp, b.replacement[x].receipt, now);
      }
    }
  }

  lemma RetainReplacementKeepsSound(b: Book, r: ReplacementReport, digest: Digest, now: Receipt, limits: EvidenceLimits)
    requires Sound(b, now, limits)
    requires r.stamp.publisher in b.publishers && b.publishers[r.stamp.publisher].incarnation == r.stamp.incarnation
    ensures Sound(RetainReplacement(b, r, digest, now, limits).0, now, limits)
  {
    hide Fresh;
    var p := r.stamp.publisher;
    var place := Place(r.candidate, p);
    if RetainReplacement(b, r, digest, now, limits).1.Done? {
      PutCounts(b.publishers, p, b.publishers[p].(highestSeq := r.stamp.seqno, accepted := b.publishers[p].accepted + 1));
      PutCounts(b.replacement, place, Retained(r, digest, now));
      var put := b.(replacement := b.replacement[place := Retained(r, digest, now)]);
      var after := Accept(put, place, r.stamp, place in b.replacement);
      FreshReads(b, put);
      NewestFresh(put, place, r.stamp, place in b.replacement, now);
      forall x | x in after.replacement ensures Fresh(after, x, after.replacement[x].report.stamp, after.replacement[x].receipt, now) {
        if x != place { AcceptFresh(put, place, r.stamp, place in b.replacement, x, b.replacement[x].report.stamp, b.replacement[x].receipt, now); }
      }
      forall x | x in after.failure ensures Fresh(after, x, after.failure[x].report.stamp, after.failure[x].receipt, now) {
        AcceptFresh(put, place, r.stamp, place in b.replacement, x, b.failure[x].report.stamp, b.failure[x].receipt, now);
      }
    }
  }

  /**
   * Every observation, accepted or not, leaves the counter equal to the number of retained
   * entries and within its limit, and every retained entry under its publisher's current
   * incarnation and under a receipt of this coordinator that is not in the future.
   */
  lemma ObserveKeepsSound(b: Book, h: Hashes, o: Observation, before: Receipt, now: Receipt, limits: EvidenceLimits)
    requires Sound(b, before, limits)
    requires before.tick <= now.tick && before.coordinator == now.coordinator
    ensures Sound(Observe(b, h, o, now, limits).0, now, limits)
  {
    LaterSound(b, before, now, limits);
    hide Sound, Admit, RetainFailure, RetainReplacement;
    AdmitKeepsSound(b, StampOf(o), now, limits);
    var (admitted, status) := Admit(b, StampOf(o), now.tick, limits);
    if status.Done? {
      Admitted(b, StampOf(o), now.tick, limits);
      match o {
        case OfSubject(r) => RetainFailureKeepsSound(admitted, r, h.failure(r), now, limits);
        case OfCandidate(r) => RetainReplacementKeepsSound(admitted, r, h.replacement(r), now, limits);
      }
    }
  }

  lemma LaterSound(b: Book, before: Receipt, now: Receipt, limits: EvidenceLimits)
    requires Sound(b, before, limits) && before.tick <= now.tick && before.coordinator == now.coordinator
    ensures Sound(b, now, limits)
  {}

  // ---- sequences ascend within a tenure ----

  /** An accepted observation: where, by whom, in which of its tenures, under which incarnation, and its sequence. */
  datatype Acceptance = Acceptance(link: LinkKey, publisher: Name, tenure: nat, incarnation: Incarnation, seqno: nat)

  datatype Trial = Trial(observation: Observation, receipt: Receipt)

  /** A run of observations from an empty book, with what it accepted in order. */
  function RunBook(h: Hashes, trials: seq<Trial>, limits: EvidenceLimits): (Book, seq<Acceptance>)
    decreases |trials|
  {
    if trials == [] then (EMPTY_BOOK, [])
    else
      var n := |trials| - 1;
      var (b, accepted) := RunBook(h, trials[..n], limits);
      var o := trials[n].observation;
      var (after, status) := Observe(b, h, o, trials[n].receipt, limits);
      var p := StampOf(o).publisher;
      (after,
       if status.Done? && p in after.publishers
       then accepted + [Acceptance(LinkOf(o), p, after.publishers[p].epoch, StampOf(o).incarnation, StampOf(o).seqno)]
       else accepted)
  }

  /** The registers bound every acceptance of the tenure they stand for. */
  predicate Bounds(b: Book, a: Acceptance) {
    && a.publisher in b.publishers
    && a.tenure <= b.publishers[a.publisher].epoch
    && (a.tenure == b.publishers[a.publisher].epoch ==>
          && a.incarnation == b.publishers[a.publisher].incarnation
          && Place(a.link, a.publisher) in b.lastSeq
          && a.seqno <= b.lastSeq[Place(a.link, a.publisher)])
  }

  lemma AdmitKeepsBounds(b: Book, stamp: Stamp, tick: nat, limits: EvidenceLimits, a: Acceptance)
    requires Bounds(b, a)
    ensures Bounds(Admit(b, stamp, tick, limits).0, a)
  {}

  lemma AcceptKeepsBounds(b: Book, place: Place, stamp: Stamp, replacing: bool, a: Acceptance)
    requires place.publisher in b.publishers && Bounds(b, a) && Advances(b, place, stamp)
    ensures Bounds(Accept(b, place, stamp, replacing), a)
  {}

  lemma BoundsReads(b: Book, c: Book)
    requires b.publishers == c.publishers && b.lastSeq == c.lastSeq
    ensures forall a :: Bounds(b, a) == Bounds(c, a)
  {}

  lemma ObserveKeepsBounds(b: Book, h: Hashes, o: Observation, now: Receipt, limits: EvidenceLimits, a: Acceptance)
    requires Bounds(b, a)
    ensures Bounds(Observe(b, h, o, now, limits).0, a)
  {
    hide Bounds, Admit, Accept;
    AdmitKeepsBounds(b, StampOf(o), now.tick, limits, a);
    var (admitted, status) := Admit(b, StampOf(o), now.tick, limits);
    if Observe(b, h, o, now, limits).1.Done? {
      var place := Place(LinkOf(o), StampOf(o).publisher);
      var put := match o
        case OfSubject(r) => admitted.(failure := admitted.failure[place := Retained(r, h.failure(r), now)])
        case OfCandidate(r) => admitted.(replacement := admitted.replacement[place := Retained(r, h.replacement(r), now)]);
      BoundsReads(admitted, put);
      Admitted(b, StampOf(o), now.tick, limits);
      AcceptKeepsBounds(put, place, StampOf(o), if o.OfSubject? then place in admitted.failure else place in admitted.replacement, a);
    }
  }

  /** What an acceptance leaves in the registers, and how it stands to every bounded earlier one of its tenure. */
  lemma ObserveAccepts(b: Book, h: Hashes, o: Observation, now: Receipt, limits: EvidenceLimits)
    requires Observe(b, h, o, now, limits).1.Done?
    ensures StampOf(o).publisher in Observe(b, h, o, now, limits).0.publishers
    ensures Observe(b, h, o, now, limits).0.publishers[StampOf(o).publisher].incarnation == StampOf(o).incarnation
    ensures Place(LinkOf(o), StampOf(o).publisher) in Observe(b, h, o, now, limits).0.lastSeq
    ensures Observe(b, h, o, now, limits).0.lastSeq[Place(LinkOf(o), StampOf(o).publisher)] == StampOf(o).seqno
    ensures forall a :: Bounds(b, a) && a.link == LinkOf(o) && a.publisher == StampOf(o).publisher
                        && a.tenure == Observe(b, h, o, now, limits).0.publishers[StampOf(o).publisher].epoch
                        ==> a.seqno < StampOf(o).seqno
  {
    hide Admit;
    Admitted(b, StampOf(o), now.tick, limits);
    var admitted := Admit(b, StampOf(o), now.tick, limits).0;
    forall a | Bounds(b, a) && a.link == LinkOf(o) && a.publisher == StampOf(o).publisher
               && a.tenure == Observe(b, h, o, now, limits).0.publishers[StampOf(o).publisher].epoch
      ensures a.seqno < StampOf(o).seqno
    {
      AdmitKeepsBounds(b, StampOf(o), now.tick, limits, a);
    }
  }

  ghost predicate AllBounded(b: Book, accepted: seq<Acceptance>) {
    forall i :: 0 <= i < |accepted| ==> Bounds(b, accepted[i])
  }

  ghost predicate Ascending(accepted: seq<Acceptance>) {
    forall i, j :: 0 <= i < j < |accepted| && accepted[i].link == accepted[j].link
                   && accepted[i].publisher == accepted[j].publisher && accepted[i].tenure == accepted[j].tenure
                   ==> accepted[i].seqno < accepted[j].seqno && accepted[i].incarnation == accepted[j].incarnation
  }

  /**
   * Across both report kinds and any publisher restarts, the accepted sequences of one link and
   * one tenure of one publisher strictly increase.
   */
  lemma {:induction false} SequencesAscend(h: Hashes, trials: seq<Trial>, limits: EvidenceLimits)
    ensures AllBounded(RunBook(h, trials, limits).0, RunBook(h, trials, limits).1)
    ensures Ascending(RunBook(h, trials, limits).1)
    decreases |trials|
  {
    hide Observe, Bounds;
    if trials != [] {
      var n := |trials| - 1;
      SequencesAscend(h, trials[..n], limits);
      var b := RunBook(h, trials[..n], limits).0;
      var accepted := RunBook(h, trials[..n], limits).1;
      var o := trials[n].observation;
      var after := Observe(b, h, o, trials[n].receipt, limits).0;
      forall i | 0 <= i < |accepted| ensures Bounds(after, accepted[i]) {
        ObserveKeepsBounds(b, h, o, trials[n].receipt, limits, accepted[i]);
      }
      if Observe(b, h, o, trials[n].receipt, limits).1.Done? {
        ObserveAccepts(b, h, o, trials[n].receipt, limits);
        NewestIsBound(after, o);
        SameTenure(after);
      }
    }
  }

  lemma NewestIsBound(b: Book, o: Observation)
    requires var p := StampOf(o).publisher;
             && p in b.publishers && b.publishers[p].incarnation == StampOf(o).incarnation
             && Place(LinkOf(o), p) in b.lastSeq && b.lastSeq[Place(LinkOf(o), p)] == StampOf(o).seqno
    ensures var p := StampOf(o).publisher;
            Bounds(b, Acceptance(LinkOf(o), p, b.publishers[p].epoch, StampOf(o).incarnation, StampOf(o).seqno))
  {}

  lemma SameTenure(b: Book)
    ensures forall a :: Bounds(b, a) && a.tenure == b.publishers[a.publisher].epoch ==> a.incarnation == b.publishers[a.publisher].incarnation
  {}

  // ---- sequences ascend within an incarnation that is never taken up again ----

  predicate From(t: Trial, a: Acceptance) {
    StampOf(t.observation).publisher == a.publisher && StampOf(t.observation).incarnation == a.incarnation
  }

  /** The publisher reports under another incarnation. */
  predicate Away(t: Trial, a: Acceptance) {
    StampOf(t.observation).publisher == a.publisher && StampOf(t.observation).incarnation != a.incarnation
  }

  /** No publisher's stamps return to an incarnation after leaving it. */
  ghost predicate NeverReturns(trials: seq<Trial>) {
    forall i, j, k :: 0 <= i < j < k < |trials| ==>
      var x, y, z := StampOf(trials[i].observation), StampOf(trials[j].observation), StampOf(trials[k].observation);
      x.publisher == y.publisher == z.publisher && x.incarnation == z.incarnation ==> y.incarnation == x.incarnation
  }

  /** The incarnation of an acceptance is still the registered one, in the same tenure. */
  predicate InOffice(b: Book, a: Acceptance) {
    && a.publisher in b.publishers
    && b.publishers[a.publisher].incarnation == a.incarnation && b.publishers[a.publisher].epoch == a.tenure
  }

  /** The publisher reported under the acceptance's incarnation, and later under another. */
  ghost predicate Left(trials: seq<Trial>, a: Acceptance) {
    exists i, j :: 0 <= i < j < |trials| && From(trials[i], a) && Away(trials[j], a)
  }

  /** Where an acceptance comes from, and what became of its incarnation. */
  ghost predicate Traced(b: Book, trials: seq<Trial>, a: Acceptance) {
    (exists i :: 0 <= i < |trials| && From(trials[i], a)) && (InOffice(b, a) || Left(trials, a))
  }

  lemma TracedOn(b: Book, h: Hashes, trials: seq<Trial>, t: Trial, limits: EvidenceLimits, a: Acceptance)
    requires Traced(b, trials, a)
    ensures Traced(Observe(b, h, t.observation, t.receipt, limits).0, trials + [t], a)
  {
    var more := trials + [t];
    var i :| 0 <= i < |trials| && From(trials[i], a);
    assert From(more[i], a);
    if Left(trials, a) {
      var k, j :| 0 <= k < j < |trials| && From(trials[k], a) && Away(trials[j], a);
      assert From(more[k], a) && Away(more[j], a);
    } else if Away(t, a) {
      assert more[|trials|] == t;
      assert From(more[i], a) && Away(more[|trials|], a);
    } else {
      StaysInOffice(b, h, t.observation, t.receipt, limits, a);
    }
  }

  /** An incarnation leaves office only by a report under another. */
  lemma StaysInOffice(b: Book, h: Hashes, o: Observation, now: Receipt, limits: EvidenceLimits, a: Acceptance)
    requires InOffice(b, a) && (StampOf(o).publisher == a.publisher ==> StampOf(o).incarnation == a.incarnation)
    ensures InOffice(Observe(b, h, o, now, limits).0, a)
  {
    hide Forget, Holding;
  }

  lemma {:induction false} AllTraced(h: Hashes, trials: seq<Trial>, limits: EvidenceLimits)
    ensures forall i :: 0 <= i < |RunBook(h, trials, limits).1| ==> Traced(RunBook(h, trials, limits).0, trials, RunBook(h, trials, limits).1[i])
    decreases |trials|
  {
    hide Observe, Traced;
    if trials != [] {
      var n := |trials| - 1;
      AllTraced(h, trials[..n], limits);
      var (b, accepted) := RunBook(h, trials[..n], limits);
      var (after, all) := RunBook(h, trials, limits);
      var t := trials[n];
      assert trials == trials[..n] + [t];
      forall i | 0 <= i < |accepted| ensures Traced(after, trials, accepted[i]) {
        TracedOn(b, h, trials[..n], t, limits, accepted[i]);
      }
      if Observe(b, h, t.observation, t.receipt, limits).1.Done? {
        ObserveAccepts(b, h, t.observation, t.receipt, limits);
        NewestTraced(after, trials, n);
      }
    }
  }

  lemma NewestTraced(b: Book, trials: seq<Trial>, n: nat)
    requires n < |trials|
    requires var s := StampOf(trials[n].observation); s.publisher in b.publishers && b.publishers[s.publisher].incarnation == s.incarnation
    ensures var s := StampOf(trials[n].observation);
            Traced(b, trials, Acceptance(LinkOf(trials[n].observation), s.publisher, b.publishers[s.publisher].epoch, s.incarnation, s.seqno))
  {
    var s := StampOf(trials[n].observation);
    assert From(trials[n], Acceptance(LinkOf(trials[n].observation), s.publisher, b.publishers[s.publisher].epoch, s.incarnation, s.seqno));
  }

  predicate SameIncarnation(a: Acceptance, b: Acceptance) { a.publisher == b.publisher && a.incarnation == b.incarnation }

  ghost predicate OneTenure(accepted: seq<Acceptance>) {
    forall i, j :: 0 <= i < j < |accepted| && SameIncarnation(accepted[i], accepted[j]) ==> accepted[i].tenure == accepted[j].tenure
  }

  /** Whoever reports has not left the incarnation it reports under. */
  lemma NotLeft(trials: seq<Trial>, n: nat, a: Acceptance)
    requires NeverReturns(trials) && n < |trials| && From(trials[n], a)
    ensures !Left(trials[..n], a)
  {
    var front := trials[..n];
    forall i, j | 0 <= i < j < |front| && From(front[i], a) ensures !Away(front[j], a) {
      assert front[i] == trials[i] && front[j] == trials[j];
    }
  }

  lemma {:induction false} TenuresAgree(h: Hashes, trials: seq<Trial>, limits: EvidenceLimits)
    requires NeverReturns(trials)
    ensures OneTenure(RunBook(h, trials, limits).1)
    decreases |trials|
  {
    hide Observe;
    if trials != [] {
      var n := |trials| - 1;
      var front := trials[..n];
      TenuresAgree(h, front, limits);
      AllTraced(h, front, limits);
      var (b, accepted) := RunBook(h, front, limits);
      var t := trials[n];
      var after := Observe(b, h, t.observation, t.receipt, limits).0;
      forall i | 0 <= i < |accepted| && From(t, accepted[i]) ensures InOffice(after, accepted[i]) {
        NotLeft(trials, n, accepted[i]);
        StaysInOffice(b, h, t.observation, t.receipt, limits, accepted[i]);
      }
    }
  }

  ghost predicate AscendingPerIncarnation(accepted: seq<Acceptance>) {
    forall i, j :: 0 <= i < j < |accepted| && SameIncarnation(accepted[i], accepted[j]) && accepted[i].link == accepted[j].link ==>
      accepted[i].seqno < accepted[j].seqno
  }

  /**
   * So where no publisher's stamps return to an incarnation after leaving it, the accepted sequences
   * of one link and one incarnation of one publisher strictly increase.
   */
  lemma AscendPerIncarnation(h: Hashes, trials: seq<Trial>, limits: EvidenceLimits)
    requires NeverReturns(trials)
    ensures AscendingPerIncarnation(RunBook(h, trials, limits).1)
  {
    hide RunBook, NeverReturns;
    SequencesAscend(h, trials, limits);
    TenuresAgree(h, trials, limits);
  }

  /** The tables have room for one more entry once what the publisher's earlier incarnation left is retired. */
  predicate RoomAfterRestart(b: Book, p: Name, limits: EvidenceLimits) {
    b.entries - |Holding(b.failure, p)| - |Holding(b.replacement, p)| < limits.maxEntries
  }

  /**
   * A report under another incarnation than the registered one is accepted exactly when its epoch is
   * higher and the tables have room - whatever its sequence, and whatever incarnation it is.
   */
  lemma RestartIsAcceptedExactlyWhen(b: Book, h: Hashes, o: Observation, now: Receipt, limits: EvidenceLimits)
    requires var s := StampOf(o); s.publisher in b.publishers && b.publishers[s.publisher].incarnation != s.incarnation
    ensures var s := StampOf(o);
            Observe(b, h, o, now, limits).1.Done? <==> b.publishers[s.publisher].epoch < s.epoch && RoomAfterRestart(b, s.publisher, limits)
    ensures var s := StampOf(o);
            Observe(b, h, o, now, limits).1.Done? ==>
              var after := Observe(b, h, o, now, limits).0;
              s.publisher in after.publishers && after.publishers[s.publisher].epoch == s.epoch
  {
    var p := StampOf(o).publisher;
    var place := Place(LinkOf(o), p);
    assert place !in Forget(b.lastSeq, p) && place !in Forget(b.failure, p) && place !in Forget(b.replacement, p);
    hide Forget, Holding;
  }

  /**
   * An incarnation that comes back starts again. After any run, a report under an incarnation that was
   * accepted before but is no longer the registered one is accepted, at a higher epoch and with room,
   * under any sequence - so an ascent per incarnation is lost as soon as that is no higher than before.
   */
  lemma ReturningIncarnationRestarts(h: Hashes, trials: seq<Trial>, limits: EvidenceLimits, i: nat, t: Trial)
    requires var (b, accepted) := RunBook(h, trials, limits);
             && i < |accepted| && accepted[i].link == LinkOf(t.observation) && From(t, accepted[i])
             && accepted[i].publisher in b.publishers && b.publishers[accepted[i].publisher].incarnation != accepted[i].incarnation
             && b.publishers[accepted[i].publisher].epoch < StampOf(t.observation).epoch
             && RoomAfterRestart(b, accepted[i].publisher, limits)
    ensures var accepted := RunBook(h, trials, limits).1;
            var s := StampOf(t.observation);
            RunBook(h, trials + [t], limits).1 == accepted + [Acceptance(LinkOf(t.observation), s.publisher, s.epoch, s.incarnation, s.seqno)]
    ensures StampOf(t.observation).seqno <= RunBook(h, trials, limits).1[i].seqno ==> !AscendingPerIncarnation(RunBook(h, trials + [t], limits).1)
  {
    hide Observe, RoomAfterRestart;
    assert (trials + [t])[..|trials|] == trials;
    var (b, accepted) := RunBook(h, trials, limits);
    RestartIsAcceptedExactlyWhen(b, h, t.observation, t.receipt, limits);
    var all := RunBook(h, trials + [t], limits).1;
    assert SameIncarnation(all[i], all[|accepted|]);
  }

  function Sighting(incarnation: Incarnation, epoch: nat, seqno: nat): Trial {
    Trial(OfSubject(FailureReport(LinkKey([1], [1]), 1, 1, Up, 0, Stamp([1], incarnation, epoch, seqno, 0))), Receipt(0, 0, []))
  }

  /** Three reports are enough: an incarnation, another, and the first again under a lower sequence. */
  lemma ThreeReportsReturn(h: Hashes) returns (trials: seq<Trial>, limits: EvidenceLimits)
    ensures var accepted := RunBook(h, trials, limits).1;
            && |accepted| == 3
            && accepted[0].link == accepted[2].link && accepted[0].publisher == accepted[2].publisher
            && accepted[0].incarnation == accepted[2].incarnation
            && accepted[2].seqno < accepted[0].seqno
  {
    hide RunBook;
    limits := EvidenceLimits(5, 5);
    NothingRun(h, limits);
    var a, b, c := Sighting([1], 1, 9), Sighting([2], 2, 1), Sighting([1], 3, 1);
    trials := [a, b, c];
    SightingsRun(h, [], [1], 1, 9, limits);
    assert [] + [a] == [a] && [a] + [b] == [a, b] && [a, b] + [c] == trials;
    SightingsRun(h, [a], [2], 2, 1, limits);
    SightingsRun(h, [a, b], [1], 3, 1, limits);
  }

  lemma NothingRun(h: Hashes, limits: EvidenceLimits)
    ensures RunBook(h, [], limits) == (EMPTY_BOOK, [])
  {}

  lemma SightingsRun(h: Hashes, trials: seq<Trial>, incarnation: Incarnation, epoch: nat, seqno: nat, limits: EvidenceLimits)
    requires var b := RunBook(h, trials, limits).0;
             && b.entries < limits.maxEntries
             && if [1] in b.publishers then b.publishers[[1]].epoch < epoch && b.publishers[[1]].incarnation != incarnation
                else |b.publishers| < limits.maxPublishers && b.lastSeq == map[]
    ensures var (after, accepted) := RunBook(h, trials + [Sighting(incarnation, epoch, seqno)], limits);
            && after.entries <= RunBook(h, trials, limits).0.entries + 1
            && [1] in after.publishers && after.publishers[[1]].epoch == epoch && after.publishers[[1]].incarnation == incarnation
            && accepted == RunBook(h, trials, limits).1 + [Acceptance(LinkKey([1], [1]), [1], epoch, incarnation, seqno)]
  {
    hide Observe;
    assert (trials + [Sighting(incarnation, epoch, seqno)])[..|trials|] == trials;
    SightingTaken(RunBook(h, trials, limits).0, h, incarnation, epoch, seqno, limits);
  }

  lemma SightingTaken(b: Book, h: Hashes, incarnation: Incarnation, epoch: nat, seqno: nat, limits: EvidenceLimits)
    requires b.entries < limits.maxEntries
    requires if [1] in b.publishers then b.publishers[[1]].epoch < epoch && b.publishers[[1]].incarnation != incarnation else |b.publishers| < limits.maxPublishers && b.lastSeq == map[]
    ensures var (after, status) := Observe(b, h, Sighting(incarnation, epoch, seqno).observation, Receipt(0, 0, []), limits);
            && status.Done? && after.entries <= b.entries + 1
            && [1] in after.publishers && after.publishers[[1]].epoch == epoch && after.publishers[[1]].incarnation == incarnation
  {}
}
