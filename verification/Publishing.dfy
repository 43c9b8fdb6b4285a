/** What a published report comes to: when it is accepted, what the tables hold afterwards, and why it is refused. */
module Publishing {
  import opened Basics
  import opened Reasons
  import opened Records
  import opened Evidence
  import opened Protocol

  // ---- who may report ----

  /** Unknown so far, and the registry has room. */
  predicate Newcomer(b: Book, s: Stamp, limits: EvidenceLimits) { s.publisher !in b.publishers && |b.publishers| < limits.maxPublishers }

  /** Registered under this incarnation. */
  predicate Sitting(b: Book, s: Stamp) { s.publisher in b.publishers && b.publishers[s.publisher].incarnation == s.incarnation }

  /** Registered under another incarnation of a lower epoch. */
  predicate Restarting(b: Book, s: Stamp) {
    s.publisher in b.publishers && b.publishers[s.publisher].incarnation != s.incarnation && b.publishers[s.publisher].epoch < s.epoch
  }

  /** What the publisher's restart retires. */
  predicate Retired(b: Book, s: Stamp, x: Place) { Restarting(b, s) && x.publisher == s.publisher }

  function PlaceOf(o: Observation): Place {
    match o
    case OfSubject(r) => Place(r.subject, r.stamp.publisher)
    case OfCandidate(r) => Place(r.candidate, r.stamp.publisher)
  }

  function Stamped(o: Observation): Stamp {
    match o
    case OfSubject(r) => r.stamp
    case OfCandidate(r) => r.stamp
  }

  /** The observation takes the place of an earlier one of its kind that stays. */
  predicate Replaces(b: Book, o: Observation) {
    match o
    case OfSubject(_) => PlaceOf(o) in b.failure && !Restarting(b, Stamped(o))
    case OfCandidate(_) => PlaceOf(o) in b.replacement && !Restarting(b, Stamped(o))
  }

  /** How many retained observations stay when this publisher reports. */
  function Staying(b: Book, s: Stamp): nat {
    |set x | x in b.failure && !Retired(b, s, x)| + |set x | x in b.replacement && !Retired(b, s, x)|
  }

  lemma StayingCounts(b: Book, s: Stamp, limits: EvidenceLimits)
    requires Counted(b, limits)
    ensures Staying(b, s) == b.entries - if Restarting(b, s) then |Holding(b.failure, s.publisher)| + |Holding(b.replacement, s.publisher)| else 0
    ensures Staying(b, s) <= limits.maxEntries
  {
    hide Holding, Retired, Restarting;
    StayingIn(b, s, b.failure);
    StayingIn(b, s, b.replacement);
  }

  lemma StayingIn<R>(b: Book, s: Stamp, t: Table<R>)
    ensures |set x | x in t && !Retired(b, s, x)| == |t| - (if Restarting(b, s) then |Holding(t, s.publisher)| else 0)
  {
    hide Restarting;
    KeysSize(t);
    assert (set x | x in t && !Retired(b, s, x)) == if Restarting(b, s) then t.Keys - Holding(t, s.publisher) else t.Keys;
    assert Holding(t, s.publisher) <= t.Keys;
  }

  /** The sequence is above the last one accepted at its place; a restart forgets that one. */
  predicate Ascends(b: Book, o: Observation) {
    Restarting(b, Stamped(o)) || PlaceOf(o) !in b.lastSeq || b.lastSeq[PlaceOf(o)] < Stamped(o).seqno
  }

  /** Exactly when a report is accepted. */
  lemma AcceptedExactlyWhen(b: Book, h: Hashes, o: Observation, receipt: Receipt, limits: EvidenceLimits)
    requires Counted(b, limits)
    ensures var s := Stamped(o);
            Evidence.Observe(b, h, o, receipt, limits).1.Done?
            <==> (Newcomer(b, s, limits) || Sitting(b, s) || Restarting(b, s))
                 && Ascends(b, o) && (Replaces(b, o) || Staying(b, s) < limits.maxEntries)
  {
    hide Counted, Holding, Staying, Evidence.Observe, Ascends, Replaces;
    RefusedBecause(b, h, o, receipt, limits);
  }

  lemma SamePlace(o: Observation)
    ensures StampOf(o) == Stamped(o) && Place(LinkOf(o), StampOf(o).publisher) == PlaceOf(o) && PlaceOf(o).publisher == Stamped(o).publisher
  {}

  lemma PlaceStays(b: Book, o: Observation)
    ensures Retired(b, Stamped(o), PlaceOf(o)) <==> Restarting(b, Stamped(o))
  {}

  /** Registration, and what a restart takes with it. */
  lemma Admission(b: Book, s: Stamp, tick: nat, limits: EvidenceLimits)
    ensures var (c, status) := Admit(b, s, tick, limits);
            && (status.Done? <==> Newcomer(b, s, limits) || Sitting(b, s) || Restarting(b, s))
            && (forall x :: x in c.failure <==> x in b.failure && !Retired(b, s, x))
            && (forall x :: x in c.failure ==> c.failure[x] == b.failure[x])
            && (forall x :: x in c.replacement <==> x in b.replacement && !Retired(b, s, x))
            && (forall x :: x in c.replacement ==> c.replacement[x] == b.replacement[x])
            && (forall x :: x in c.lastSeq <==> x in b.lastSeq && !Retired(b, s, x))
            && (forall x :: x in c.lastSeq ==> c.lastSeq[x] == b.lastSeq[x])
            && c.entries == b.entries - (if Restarting(b, s) then |Holding(b.failure, s.publisher)| + |Holding(b.replacement, s.publisher)| else 0)
            && (forall p :: p != s.publisher ==> (p in c.publishers <==> p in b.publishers) && (p in b.publishers ==> c.publishers[p] == b.publishers[p]))
            && (Newcomer(b, s, limits) ==> s.publisher in c.publishers && c.publishers[s.publisher] == Publisher(s.incarnation, s.epoch, 0, tick, 0))
            && (Sitting(b, s) ==> c.publishers == b.publishers)
            && (Restarting(b, s) ==>
                  s.publisher in c.publishers && c.publishers[s.publisher] == b.publishers[s.publisher].(incarnation := s.incarnation, epoch := s.epoch))
  {}

  // ---- what is retained ----

  /** The table after an accepted report: the report at its place, and everything else but what was retired. */
  ghost predicate Holds<R(!new)>(was: Table<R>, now: Table<R>, place: Place, report: R, digest: Digest, receipt: Receipt, b: Book, s: Stamp) {
    && place in now && now[place].report == report && now[place].digest == digest && now[place].receipt == receipt
    && (forall x :: x != place ==> (x in now <==> x in was && !Retired(b, s, x)))
    && (forall x :: x in now && x != place ==> now[x] == was[x])
  }

  ghost predicate Remains<R(!new)>(was: Table<R>, now: Table<R>, b: Book, s: Stamp) {
    (forall x :: x in now <==> x in was && !Retired(b, s, x)) && (forall x :: x in now ==> now[x] == was[x])
  }

  /** The registers after an accepted report. */
  ghost predicate Registered(b: Book, c: Book, o: Observation, tick: nat) {
    SequenceNoted(b, c, o) && PublisherNoted(b, c, Stamped(o), tick)
  }

  ghost predicate SequenceNoted(b: Book, c: Book, o: Observation) {
    var s, place := Stamped(o), PlaceOf(o);
    && place in c.lastSeq && c.lastSeq[place] == s.seqno
    && (forall x :: x != place ==> (x in c.lastSeq <==> x in b.lastSeq && !Retired(b, s, x)))
    && (forall x :: x in c.lastSeq && x != place ==> c.lastSeq[x] == b.lastSeq[x])
  }

  ghost predicate PublisherNoted(b: Book, c: Book, s: Stamp, tick: nat) {
    && s.publisher in c.publishers
    && c.publishers[s.publisher].incarnation == s.incarnation && c.publishers[s.publisher].highestSeq == s.seqno
    && c.publishers[s.publisher].epoch == (if Sitting(b, s) then b.publishers[s.publisher].epoch else s.epoch)
    && c.publishers[s.publisher].firstSeenTick == (if s.publisher in b.publishers then b.publishers[s.publisher].firstSeenTick else tick)
    && c.publishers[s.publisher].accepted == (if s.publisher in b.publishers then b.publishers[s.publisher].accepted else 0) + 1
    && (forall p :: p != s.publisher ==> (p in c.publishers <==> p in b.publishers) && (p in b.publishers ==> c.publishers[p] == b.publishers[p]))
  }

  lemma AcceptRegisters(b: Book, h: Hashes, o: Observation, receipt: Receipt, limits: EvidenceLimits)
    requires Evidence.Observe(b, h, o, receipt, limits).1.Done?
    ensures Registered(b, Evidence.Observe(b, h, o, receipt, limits).0, o, receipt.tick)
  {
    hide Admit, Holding, SequenceNoted, PublisherNoted;
    var s := Stamped(o);
    Admission(b, s, receipt.tick, limits);
    var admitted := Admit(b, s, receipt.tick, limits).0;
    var c := Evidence.Observe(b, h, o, receipt, limits).0;
    AcceptWrites(b, h, o, receipt, limits);
    NotesSequence(b, admitted, c, o);
    NotesPublisher(b, admitted, c, s, receipt.tick, limits);
  }

  lemma AcceptWrites(b: Book, h: Hashes, o: Observation, receipt: Receipt, limits: EvidenceLimits)
    requires Evidence.Observe(b, h, o, receipt, limits).1.Done?
    ensures var s := Stamped(o);
            var admitted := Admit(b, s, receipt.tick, limits).0;
            var c := Evidence.Observe(b, h, o, receipt, limits).0;
            && Admit(b, s, receipt.tick, limits).1.Done?
            && c.lastSeq == admitted.lastSeq[PlaceOf(o) := s.seqno]
            && s.publisher in admitted.publishers
            && c.publishers == admitted.publishers[s.publisher := admitted.publishers[s.publisher].(highestSeq := s.seqno,
                                                                                                    accepted := admitted.publishers[s.publisher].accepted + 1)]
  {
    hide Admit;
    SamePlace(o);
    Evidence.Admitted(b, Stamped(o), receipt.tick, limits);
  }

  lemma NotesSequence(b: Book, admitted: Book, c: Book, o: Observation)
    requires c.lastSeq == admitted.lastSeq[PlaceOf(o) := Stamped(o).seqno]
    requires forall x :: x in admitted.lastSeq <==> x in b.lastSeq && !Retired(b, Stamped(o), x)
    requires forall x :: x in admitted.lastSeq ==> admitted.lastSeq[x] == b.lastSeq[x]
    ensures SequenceNoted(b, c, o)
  {
    hide Retired;
  }

  lemma NotesPublisher(b: Book, admitted: Book, c: Book, s: Stamp, tick: nat, limits: EvidenceLimits)
    requires s.publisher in admitted.publishers
    requires c.publishers == admitted.publishers[s.publisher := admitted.publishers[s.publisher].(highestSeq := s.seqno,
                                                                                                  accepted := admitted.publishers[s.publisher].accepted + 1)]
    requires Newcomer(b, s, limits) || Sitting(b, s) || Restarting(b, s)
    requires forall p :: p != s.publisher ==> (p in admitted.publishers <==> p in b.publishers)
    requires forall p :: p != s.publisher && p in b.publishers ==> p in admitted.publishers && admitted.publishers[p] == b.publishers[p]
    requires Newcomer(b, s, limits) ==> admitted.publishers[s.publisher] == Publisher(s.incarnation, s.epoch, 0, tick, 0)
    requires Sitting(b, s) ==> admitted.publishers == b.publishers
    requires Restarting(b, s) ==> admitted.publishers[s.publisher] == b.publishers[s.publisher].(incarnation := s.incarnation, epoch := s.epoch)
    ensures PublisherNoted(b, c, s, tick)
  {}

  /** An accepted report about the link itself. */
  lemma FailureIsHeld(b: Book, h: Hashes, r: FailureReport, receipt: Receipt, limits: EvidenceLimits)
    requires Evidence.Observe(b, h, OfSubject(r), receipt, limits).1.Done?
    ensures var c := Evidence.Observe(b, h, OfSubject(r), receipt, limits).0;
            && Holds(b.failure, c.failure, Place(r.subject, r.stamp.publisher), r, h.failure(r), receipt, b, r.stamp)
            && Remains(b.replacement, c.replacement, b, r.stamp)
            && Registered(b, c, OfSubject(r), receipt.tick)
  {
    hide Admit, Holding, Registered;
    Admission(b, r.stamp, receipt.tick, limits);
    AcceptRegisters(b, h, OfSubject(r), receipt, limits);
  }

  /** An accepted report about an alternate. */
  lemma ReplacementIsHeld(b: Book, h: Hashes, r: ReplacementReport, receipt: Receipt, limits: EvidenceLimits)
    requires Evidence.Observe(b, h, OfCandidate(r), receipt, limits).1.Done?
    ensures var c := Evidence.Observe(b, h, OfCandidate(r), receipt, limits).0;
            && Holds(b.replacement, c.replacement, Place(r.candidate, r.stamp.publisher), r, h.replacement(r), receipt, b, r.stamp)
            && Remains(b.failure, c.failure, b, r.stamp)
            && Registered(b, c, OfCandidate(r), receipt.tick)
  {
    hide Admit, Holding, Registered;
    Admission(b, r.stamp, receipt.tick, limits);
    AcceptRegisters(b, h, OfCandidate(r), receipt, limits);
  }

  // ---- refusals ----

  lemma NothingRetired(b: Book, s: Stamp, limits: EvidenceLimits)
    requires Counted(b, limits) && Staying(b, s) >= limits.maxEntries
    ensures forall x :: x in b.failure || x in b.replacement ==> !Retired(b, s, x)
  {
    StayingCounts(b, s, limits);
    if Restarting(b, s) {
      assert |Holding(b.failure, s.publisher)| == 0 && |Holding(b.replacement, s.publisher)| == 0;
      forall x | x in b.failure || x in b.replacement ensures x.publisher != s.publisher {
        assert x !in Holding(b.failure, s.publisher) && x !in Holding(b.replacement, s.publisher);
      }
    }
  }

  lemma NobodyRetired(b: Book, s: Stamp)
    requires !Restarting(b, s)
    ensures forall x :: !Retired(b, s, x)
  {}

  /** A refused report changes no table. */
  lemma RefusedChangesNothing(b: Book, h: Hashes, o: Observation, receipt: Receipt, limits: EvidenceLimits)
    requires Counted(b, limits) && Evidence.Observe(b, h, o, receipt, limits).1.Fault?
    ensures var c := Evidence.Observe(b, h, o, receipt, limits).0; c.failure == b.failure && c.replacement == b.replacement
  {
    hide Counted, Holding, Staying, Admit, Evidence.Observe, Retired;
    var s := Stamped(o);
    RefusedBecause(b, h, o, receipt, limits);
    RefusedLeaves(b, h, o, receipt, limits);
    if !Restarting(b, s) { NobodyRetired(b, s); }
    if Staying(b, s) >= limits.maxEntries { NothingRetired(b, s, limits); }
    Admission(b, s, receipt.tick, limits);
  }

  lemma RefusedLeaves(b: Book, h: Hashes, o: Observation, receipt: Receipt, limits: EvidenceLimits)
    requires Evidence.Observe(b, h, o, receipt, limits).1.Fault?
    ensures Evidence.Observe(b, h, o, receipt, limits).0 == if Admit(b, Stamped(o), receipt.tick, limits).1.Fault? then b
                                                            else Admit(b, Stamped(o), receipt.tick, limits).0
  {
    hide Admit, Accept;
    SamePlace(o);
  }

  /** Why a report is refused, first reason first. */
  lemma RefusedBecause(b: Book, h: Hashes, o: Observation, receipt: Receipt, limits: EvidenceLimits)
    requires Counted(b, limits)
    ensures var s := Stamped(o);
            var status := Evidence.Observe(b, h, o, receipt, limits).1;
            if s.publisher !in b.publishers && |b.publishers| >= limits.maxPublishers then status == Fault(Outcome.Exhausted, LIMIT_EXCEEDED)
            else if s.publisher in b.publishers && b.publishers[s.publisher].incarnation != s.incarnation && s.epoch < b.publishers[s.publisher].epoch
            then status == Fault(Outcome.Stale, PUBLISHER_MISMATCH)
            else if s.publisher in b.publishers && b.publishers[s.publisher].incarnation != s.incarnation && s.epoch == b.publishers[s.publisher].epoch
            then status == Fault(Outcome.Conflict, PUBLISHER_MISMATCH)
            else if !Ascends(b, o) then status == Fault(Outcome.Stale, SESSION_SEQUENCE_REPLAYED)
            else if !Replaces(b, o) && Staying(b, s) >= limits.maxEntries then status == Fault(Outcome.Exhausted, LIMIT_EXCEEDED)
            else status == Status.Done
  {
    hide Counted, Holding, Staying, Accept, Retired;
    StayingCounts(b, Stamped(o), limits);
    Admission(b, Stamped(o), receipt.tick, limits);
    PlaceStays(b, o);
  }

  // ---- the call ----

  /** The report names the engine's fabric, a link, a publisher, and generations and an incarnation that are not zero. */
  predicate WellShaped(fabric: Name, o: Observation) {
    && Stamped(o).publisher != [] && Stamped(o).incarnation != ZERO_INCARNATION
    && match o
       case OfSubject(r) => r.subject.fabric == fabric && r.subject.link != [] && r.generation != 0 && r.topologyGeneration != 0
       case OfCandidate(r) => r.candidate.fabric == fabric && r.candidate.link != [] && r.generation != 0 && r.topologyGeneration != 0
  }

  function LinkAbout(o: Observation): LinkKey { PlaceOf(o).link }

  /** The call takes a tick and asks the book, under a receipt of this process and tick; a malformed report, or a closed or failed engine, does neither. */
  lemma PublishAnswers(env: Env, e: EngineState, o: Observation)
    ensures var (f, reply) := Publish(env, e, o);
            var asked := Evidence.Observe(e.book, env.h, o, Receipt(e.tick + 1, e.epoch, e.incarnation), e.options.limits.evidence);
            if e.closed then f == e && reply == Failed(Outcome.Closed, SHUTDOWN)
            else if e.storeFailed then f == e && reply == Failed(Outcome.IoError, INTERNAL_ERROR)
            else if LinkAbout(o).fabric != e.options.fabric then f == e && reply == Failed(Outcome.NotFound, UNKNOWN_FABRIC)
            else if !WellShaped(e.options.fabric, o) then f == e && reply == Failed(Outcome.Invalid, NULL_FIELD)
            else f == e.(tick := e.tick + 1, book := asked.0)
                 && reply == match asked.1 case Done => Reply.Done case Fault(outcome, code) => Failed(outcome, code)
  {
    hide Evidence.Observe;
  }

  /**
   * From the book before to the answer and the book after. A closed or failed engine and a malformed
   * report change nothing. A well-shaped report is answered Done exactly when its publisher may
   * report, its sequence ascends and it fits; then its place holds this very report under this call's
   * receipt, and nothing else moved but what a restart retired; otherwise no table changed.
   */
  ghost predicate FailureReported(env: Env, e: EngineState, r: FailureReport, f: EngineState, reply: Reply) {
    var b, c, limits := e.book, f.book, e.options.limits.evidence;
    var o := OfSubject(r);
    if e.closed then f == e && reply == Failed(Outcome.Closed, SHUTDOWN)
    else if e.storeFailed then f == e && reply == Failed(Outcome.IoError, INTERNAL_ERROR)
    else if r.subject.fabric != e.options.fabric then f == e && reply == Failed(Outcome.NotFound, UNKNOWN_FABRIC)
    else if !WellShaped(e.options.fabric, o) then f == e && reply == Failed(Outcome.Invalid, NULL_FIELD)
    else
      && f == e.(tick := e.tick + 1, book := c)
      && (reply == Reply.Done ==>
            && Holds(b.failure, c.failure, Place(r.subject, r.stamp.publisher), r, env.h.failure(r), Receipt(e.tick + 1, e.epoch, e.incarnation), b, r.stamp)
            && Remains(b.replacement, c.replacement, b, r.stamp) && Registered(b, c, o, e.tick + 1))
      && (Counted(b, limits) ==> Judged(b, c, o, limits, reply))
  }

  /** The same for a report about an alternate. */
  ghost predicate ReplacementReported(env: Env, e: EngineState, r: ReplacementReport, f: EngineState, reply: Reply) {
    var b, c, limits := e.book, f.book, e.options.limits.evidence;
    var o := OfCandidate(r);
    if e.closed then f == e && reply == Failed(Outcome.Closed, SHUTDOWN)
    else if e.storeFailed then f == e && reply == Failed(Outcome.IoError, INTERNAL_ERROR)
    else if r.candidate.fabric != e.options.fabric then f == e && reply == Failed(Outcome.NotFound, UNKNOWN_FABRIC)
    else if !WellShaped(e.options.fabric, o) then f == e && reply == Failed(Outcome.Invalid, NULL_FIELD)
    else
      && f == e.(tick := e.tick + 1, book := c)
      && (reply == Reply.Done ==>
            && Holds(b.replacement, c.replacement, Place(r.candidate, r.stamp.publisher), r, env.h.replacement(r),
                     Receipt(e.tick + 1, e.epoch, e.incarnation), b, r.stamp)
            && Remains(b.failure, c.failure, b, r.stamp) && Registered(b, c, o, e.tick + 1))
      && (Counted(b, limits) ==> Judged(b, c, o, limits, reply))
  }

  /** Accepted exactly when it may be; refused for the first thing wrong, and then no table changed. */
  ghost predicate Judged(b: Book, c: Book, o: Observation, limits: EvidenceLimits, reply: Reply) {
    var s := Stamped(o);
    && (reply == Reply.Done <==>
          (Newcomer(b, s, limits) || Sitting(b, s) || Restarting(b, s)) && Ascends(b, o) && (Replaces(b, o) || Staying(b, s) < limits.maxEntries))
    && (reply != Reply.Done ==> c.failure == b.failure && c.replacement == b.replacement)
    && reply == (if s.publisher !in b.publishers && |b.publishers| >= limits.maxPublishers then Failed(Outcome.Exhausted, LIMIT_EXCEEDED)
                 else if s.publisher in b.publishers && b.publishers[s.publisher].incarnation != s.incarnation && s.epoch < b.publishers[s.publisher].epoch
                 then Failed(Outcome.Stale, PUBLISHER_MISMATCH)
                 else if s.publisher in b.publishers && b.publishers[s.publisher].incarnation != s.incarnation && s.epoch == b.publishers[s.publisher].epoch
                 then Failed(Outcome.Conflict, PUBLISHER_MISMATCH)
                 else if !Ascends(b, o) then Failed(Outcome.Stale, SESSION_SEQUENCE_REPLAYED)
                 else if !Replaces(b, o) && Staying(b, s) >= limits.maxEntries then Failed(Outcome.Exhausted, LIMIT_EXCEEDED)
                 else Reply.Done)
  }

  lemma BookJudges(b: Book, h: Hashes, o: Observation, receipt: Receipt, limits: EvidenceLimits)
    requires Counted(b, limits)
    ensures var (c, status) := Evidence.Observe(b, h, o, receipt, limits);
            Judged(b, c, o, limits, match status case Done => Reply.Done case Fault(outcome, code) => Failed(outcome, code))
  {
    hide Counted, Holding, Staying, Evidence.Observe, Ascends, Replaces;
    AcceptedExactlyWhen(b, h, o, receipt, limits);
    RefusedBecause(b, h, o, receipt, limits);
    if Evidence.Observe(b, h, o, receipt, limits).1.Fault? { RefusedChangesNothing(b, h, o, receipt, limits); }
  }

  lemma FailureReportOutcome(env: Env, e: EngineState, r: FailureReport)
    ensures FailureReported(env, e, r, Publish(env, e, OfSubject(r)).0, Publish(env, e, OfSubject(r)).1)
  {
    hide Publish, Evidence.Observe, Counted, Holds, Remains, Registered, WellShaped, Judged;
    var receipt := Receipt(e.tick + 1, e.epoch, e.incarnation);
    PublishAnswers(env, e, OfSubject(r));
    var asked := Evidence.Observe(e.book, env.h, OfSubject(r), receipt, e.options.limits.evidence);
    if asked.1.Done? { FailureIsHeld(e.book, env.h, r, receipt, e.options.limits.evidence); }
    if Counted(e.book, e.options.limits.evidence) { BookJudges(e.book, env.h, OfSubject(r), receipt, e.options.limits.evidence); }
  }

  lemma ReplacementReportOutcome(env: Env, e: EngineState, r: ReplacementReport)
    ensures ReplacementReported(env, e, r, Publish(env, e, OfCandidate(r)).0, Publish(env, e, OfCandidate(r)).1)
  {
    hide Publish, Evidence.Observe, Counted, Holds, Remains, Registered, WellShaped, Judged;
    var receipt := Receipt(e.tick + 1, e.epoch, e.incarnation);
    PublishAnswers(env, e, OfCandidate(r));
    var asked := Evidence.Observe(e.book, env.h, OfCandidate(r), receipt, e.options.limits.evidence);
    if asked.1.Done? { ReplacementIsHeld(e.book, env.h, r, receipt, e.options.limits.evidence); }
    if Counted(e.book, e.options.limits.evidence) { BookJudges(e.book, env.h, OfCandidate(r), receipt, e.options.limits.evidence); }
  }
}
