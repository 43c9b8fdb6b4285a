/** What the retained evidence establishes: the failure verdict and the resolution of a candidate. */
module Verdicts {
  import opened Basics
  import opened Reasons
  import opened Records
  import opened Evidence
  import Selector

  /** From where evidence is judged: the coordinator's boot and clock, and the current definitions. */
  datatype Viewpoint = Viewpoint(incarnation: Incarnation, tick: nat, policy: Policy, topologyGeneration: nat)

  function Classify(receipt: Receipt, v: Viewpoint): (Freshness, nat) {
    if receipt.coordinator != v.incarnation then (Freshness.PriorIncarnation, 0)
    else if receipt.tick > v.tick then (Freshness.Future, 0)
    else (if v.tick - receipt.tick > v.policy.evidenceMaxAge then Freshness.Expired else Freshness.Current, v.tick - receipt.tick)
  }

  /** In a sound book nothing comes from a prior incarnation or from the future: both classes are unreachable. */
  lemma OnlyCurrentOrExpired(b: Book, v: Viewpoint, now: Receipt, limits: EvidenceLimits, x: Place)
    requires Sound(b, now, limits) && now.tick == v.tick && now.coordinator == v.incarnation
    ensures x in b.failure ==> Classify(b.failure[x].receipt, v).0 in {Freshness.Current, Freshness.Expired}
    ensures x in b.replacement ==> Classify(b.replacement[x].receipt, v).0 in {Freshness.Current, Freshness.Expired}
  {}

  // ---- names in order ----

  /** The least of a set of names: where an ordered map's iteration starts. */
  ghost function Least(s: set<Name>): (n: Name)
    requires s != {}
    ensures n in s && forall m :: m in s ==> m == n || NameLess(n, m)
  {
    LeastExists(s);
    var n :| n in s && forall m :: m in s ==> m == n || NameLess(n, m);
    n
  }

  lemma {:induction false} LeastExists(s: set<Name>)
    requires s != {}
    ensures exists n :: n in s && forall m :: m in s ==> m == n || NameLess(n, m)
    decreases |s|
  {
    var x :| x in s;
    var rest := s - {x};
    if rest == {} {
      assert forall m :: m in s ==> m in rest || m == x;
    } else {
      LeastExists(rest);
      var y :| y in rest && forall m :: m in rest ==> m == y || NameLess(y, m);
      LesserOf(rest, x, y);
      assert rest + {x} == s;
    }
  }

  lemma LesserOf(rest: set<Name>, x: Name, y: Name)
    requires y in rest && forall m :: m in rest ==> m == y || NameLess(y, m)
    ensures exists n :: n in rest + {x} && forall m :: m in rest + {x} ==> m == n || NameLess(n, m)
  {
    NameLessTotal(x, y);
    hide NameLess;
    var n := if NameLess(x, y) then x else y;
    forall m | m in rest + {x} ensures m == n || NameLess(n, m) {
      if m in rest && m != y && NameLess(x, y) { NameLessTransitive(x, y, m); }
    }
    assert n in rest + {x};
  }

  lemma LeastIsUnique(s: set<Name>, n: Name)
    requires n in s && forall m :: m in s ==> m == n || NameLess(n, m)
    ensures n == Least(s)
  {
    var l := Least(s);
    if n != l { NameLessAsymmetric(n, l); }
  }

  // ---- the failure verdict ----

  datatype Use = Stale | OtherGeneration | LowConfidence | Undeclared | Healthy | Failing

  /** How one retained failure observation counts. */
  function UseOf(b: Book, v: Viewpoint, generation: nat, x: Place): Use
    requires x in b.failure
  {
    var held := b.failure[x];
    if x.publisher !in b.publishers || b.publishers[x.publisher].incarnation != held.report.stamp.incarnation then Use.Stale
    else if held.report.generation != generation || held.report.topologyGeneration != v.topologyGeneration then OtherGeneration
    else if !Classify(held.receipt, v).0.Current? then Use.Stale
    else if held.report.confidence < v.policy.minFailureConfidence then LowConfidence
    else if held.report.state.Unknown? then Undeclared
    else if IsFailure(held.report.state, v.policy.treatDegradedAsFailed) then Failing
    else Healthy
  }

  /** The publishers with something retained about a link. */
  function Reporters<R>(t: Table<R>, link: LinkKey): set<Name> {
    set x | x in t && x.link == link :: x.publisher
  }

  /** The publishers whose observation of the link counts in a given way. */
  function Counting(b: Book, v: Viewpoint, link: LinkKey, generation: nat, u: Use): set<Name> {
    set x | x in b.failure && x.link == link && UseOf(b, v, generation, x) == u :: x.publisher
  }

  /** Whether observation `p` is preferred to `q` as the one to cite. */
  predicate Preferred(b: Book, v: Viewpoint, link: LinkKey, p: Name, q: Name)
    requires Place(link, p) in b.failure && Place(link, q) in b.failure
  {
    var x, y := b.failure[Place(link, p)], b.failure[Place(link, q)];
    || x.report.confidence > y.report.confidence
    || (x.report.confidence == y.report.confidence
        && (Classify(x.receipt, v).1 < Classify(y.receipt, v).1
            || (Classify(x.receipt, v).1 == Classify(y.receipt, v).1 && NameLess(p, q))))
  }

  ghost predicate Cited(b: Book, v: Viewpoint, link: LinkKey, failing: set<Name>, p: Name)
    requires forall q :: q in failing ==> Place(link, q) in b.failure
  {
    p in failing && forall q :: q in failing ==> q == p || Preferred(b, v, link, p, q)
  }

  lemma PreferredIsStrictTotal(b: Book, v: Viewpoint, link: LinkKey, p: Name, q: Name, r: Name)
    requires Place(link, p) in b.failure && Place(link, q) in b.failure && Place(link, r) in b.failure
    ensures p == q || Preferred(b, v, link, p, q) || Preferred(b, v, link, q, p)
    ensures Preferred(b, v, link, p, q) ==> !Preferred(b, v, link, q, p)
    ensures Preferred(b, v, link, p, q) && Preferred(b, v, link, q, r) ==> Preferred(b, v, link, p, r)
  {
    NameLessTotal(p, q);
    if NameLess(p, q) { NameLessAsymmetric(p, q); }
    if NameLess(q, p) { NameLessAsymmetric(q, p); }
    if NameLess(p, q) && NameLess(q, r) { NameLessTransitive(p, q, r); }
  }

  lemma {:induction false} CitedExists(b: Book, v: Viewpoint, link: LinkKey, failing: set<Name>)
    requires failing != {} && forall q :: q in failing ==> Place(link, q) in b.failure
    ensures exists p :: Cited(b, v, link, failing, p)
    decreases |failing|
  {
    hide Preferred;
    var x :| x in failing;
    var rest := failing - {x};
    if rest == {} {
      assert failing == {x};
      assert Cited(b, v, link, failing, x);
    } else {
      CitedExists(b, v, link, rest);
      var y :| Cited(b, v, link, rest, y);
      PreferredIsStrictTotal(b, v, link, x, y, y);
      var n := if Preferred(b, v, link, x, y) then x else y;
      forall m | m in failing ensures m == n || Preferred(b, v, link, n, m) {
        if m in rest && n == x && m != y { PreferredIsStrictTotal(b, v, link, x, y, m); }
      }
      assert Cited(b, v, link, failing, n);
    }
  }

  lemma CitedIsUnique(b: Book, v: Viewpoint, link: LinkKey, failing: set<Name>, p: Name, q: Name)
    requires forall q :: q in failing ==> Place(link, q) in b.failure
    requires Cited(b, v, link, failing, p) && Cited(b, v, link, failing, q)
    ensures p == q
  {
    PreferredIsStrictTotal(b, v, link, p, q, q);
  }

  ghost function CitedOf(b: Book, v: Viewpoint, link: LinkKey, failing: set<Name>): (p: Name)
    requires failing != {} && forall q :: q in failing ==> Place(link, q) in b.failure
    ensures Cited(b, v, link, failing, p)
  {
    CitedExists(b, v, link, failing);
    var p :| Cited(b, v, link, failing, p);
    p
  }

  datatype FailureVerdict =
    | Established(publisher: Name, incarnation: Incarnation, seqno: nat, digest: Digest)
    | NotEstablished(outcome: Outcome, reason: nat, extra: seq<Reason>)

  /** Unanimity of the qualified, or a strict majority of them. */
  predicate Agreed(rule: AgreementRule, failing: nat, healthy: nat) {
    match rule
    case Unanimous => healthy == 0
    case Majority => 2 * failing > failing + healthy
  }

  predicate Contradicted(rule: AgreementRule, failing: nat, healthy: nat) {
    match rule
    case Unanimous => failing > 0 && healthy > 0
    case Majority => 2 * failing == failing + healthy
  }

  /** The explanation when nothing qualifies: the first of four causes, then all of them. */
  function Unqualified(stale: bool, low: bool, undeclared: bool, other: bool): FailureVerdict {
    var reason :=
      if stale then EVIDENCE_STALE
      else if low then EVIDENCE_LOW_CONFIDENCE
      else if undeclared then EVIDENCE_UNKNOWN
      else if other then GENERATION_MISMATCH
      else EVIDENCE_MISSING;
    NotEstablished(Outcome.Unknown, reason,
                   (if stale then [Because(EVIDENCE_STALE)] else []) +
                   (if low then [Because(EVIDENCE_LOW_CONFIDENCE)] else []) +
                   (if undeclared then [Because(EVIDENCE_UNKNOWN)] else []) +
                   (if other then [Because(GENERATION_MISMATCH)] else []))
  }

  /** What the retained observations say about a link generation. */
  ghost function EvaluateFailure(b: Book, v: Viewpoint, link: LinkKey, generation: nat): FailureVerdict {
    if Reporters(b.failure, link) == {} then NotEstablished(Outcome.Unknown, EVIDENCE_MISSING, [])
    else
      var failing := Counting(b, v, link, generation, Failing);
      var healthy := Counting(b, v, link, generation, Healthy);
      if |failing| + |healthy| == 0 then
        Unqualified(Counting(b, v, link, generation, Use.Stale) != {}, Counting(b, v, link, generation, LowConfidence) != {},
                    Counting(b, v, link, generation, Undeclared) != {}, Counting(b, v, link, generation, OtherGeneration) != {})
      else if Agreed(v.policy.agreement, |failing|, |healthy|) then
        var cited := CitedOf(b, v, link, failing);
        var held := b.failure[Place(link, cited)];
        Established(held.report.stamp.publisher, held.report.stamp.incarnation, held.report.stamp.seqno, held.digest)
      else if Contradicted(v.policy.agreement, |failing|, |healthy|) then
        NotEstablished(Outcome.Indeterminate, EVIDENCE_CONFLICTED, [])
      else NotEstablished(Outcome.Refused, SUBJECT_NOT_FAILED, [])
  }

  /** What one scan of the observations has seen so far. */
  datatype Scan = Scan(stale: bool, low: bool, undeclared: bool, other: bool, failing: nat, healthy: nat, best: Option<Name>)

  /** The publishers seen, by how their observations count. */
  datatype Sets = Sets(stale: set<Name>, low: set<Name>, undeclared: set<Name>, other: set<Name>, failing: set<Name>, healthy: set<Name>)

  ghost function SetsOf(b: Book, v: Viewpoint, link: LinkKey, generation: nat, seen: set<Name>): Sets {
    Sets(Counting(b, v, link, generation, Use.Stale) * seen, Counting(b, v, link, generation, LowConfidence) * seen,
         Counting(b, v, link, generation, Undeclared) * seen, Counting(b, v, link, generation, OtherGeneration) * seen,
         Counting(b, v, link, generation, Failing) * seen, Counting(b, v, link, generation, Healthy) * seen)
  }

  ghost predicate Tallied(x: Sets, s: Scan) {
    && (s.stale <==> x.stale != {}) && (s.low <==> x.low != {})
    && (s.undeclared <==> x.undeclared != {}) && (s.other <==> x.other != {})
    && s.failing == |x.failing| && s.healthy == |x.healthy|
    && (s.best.None? <==> x.failing == {})
  }

  /** The scan after the publishers in `seen`, whatever order they came in. */
  ghost predicate Scanned(b: Book, v: Viewpoint, link: LinkKey, generation: nat, seen: set<Name>, s: Scan) {
    && Tallied(SetsOf(b, v, link, generation, seen), s)
    && (forall q :: q in Counting(b, v, link, generation, Failing) * seen ==> Place(link, q) in b.failure)
    && (s.best.Some? ==> Cited(b, v, link, Counting(b, v, link, generation, Failing) * seen, s.best.value))
  }

  function AddTo(x: Sets, u: Use, p: Name): Sets {
    match u
    case Stale => x.(stale := x.stale + {p})
    case OtherGeneration => x.(other := x.other + {p})
    case LowConfidence => x.(low := x.low + {p})
    case Undeclared => x.(undeclared := x.undeclared + {p})
    case Healthy => x.(healthy := x.healthy + {p})
    case Failing => x.(failing := x.failing + {p})
  }

  function StepBy(u: Use, preferred: bool, p: Name, s: Scan): Scan {
    match u
    case Stale => s.(stale := true)
    case OtherGeneration => s.(other := true)
    case LowConfidence => s.(low := true)
    case Undeclared => s.(undeclared := true)
    case Healthy => s.(healthy := s.healthy + 1)
    case Failing => s.(failing := s.failing + 1, best := if preferred then Some(p) else s.best)
  }

  function ScanStep(b: Book, v: Viewpoint, link: LinkKey, generation: nat, p: Name, s: Scan): Scan
    requires Place(link, p) in b.failure && (s.best.Some? ==> Place(link, s.best.value) in b.failure)
  {
    StepBy(UseOf(b, v, generation, Place(link, p)), s.best.None? || Preferred(b, v, link, p, s.best.value), p, s)
  }

  lemma CountingStep(b: Book, v: Viewpoint, link: LinkKey, generation: nat, seen: set<Name>, p: Name, u: Use)
    requires Place(link, p) in b.failure && p !in seen
    ensures var before := Counting(b, v, link, generation, u) * seen;
            && p !in before
            && Counting(b, v, link, generation, u) * (seen + {p})
               == if UseOf(b, v, generation, Place(link, p)) == u then before + {p} else before
  {
    hide UseOf;
  }

  lemma SetsStep(b: Book, v: Viewpoint, link: LinkKey, generation: nat, seen: set<Name>, p: Name)
    requires Place(link, p) in b.failure && p !in seen
    ensures SetsOf(b, v, link, generation, seen + {p})
         == AddTo(SetsOf(b, v, link, generation, seen), UseOf(b, v, generation, Place(link, p)), p)
    ensures p !in SetsOf(b, v, link, generation, seen).failing && p !in SetsOf(b, v, link, generation, seen).healthy
  {
    hide Counting, UseOf;
    CountingStep(b, v, link, generation, seen, p, Use.Stale);
    CountingStep(b, v, link, generation, seen, p, LowConfidence);
    CountingStep(b, v, link, generation, seen, p, Undeclared);
    CountingStep(b, v, link, generation, seen, p, OtherGeneration);
    CountingStep(b, v, link, generation, seen, p, Healthy);
    CountingStep(b, v, link, generation, seen, p, Failing);
  }

  lemma CitedStep(b: Book, v: Viewpoint, link: LinkKey, failing: set<Name>, best: Option<Name>, p: Name)
    requires Place(link, p) in b.failure && p !in failing && forall q :: q in failing ==> Place(link, q) in b.failure
    requires (best.None? <==> failing == {}) && (best.Some? ==> Cited(b, v, link, failing, best.value))
    ensures Cited(b, v, link, failing + {p}, if best.None? || Preferred(b, v, link, p, best.value) then p else best.value)
  {
    hide Preferred;
    if best.Some? {
      PreferredIsStrictTotal(b, v, link, p, best.value, best.value);
      forall q | q in failing ensures Preferred(b, v, link, p, best.value) ==> q == p || Preferred(b, v, link, p, q) {
        PreferredIsStrictTotal(b, v, link, p, best.value, q);
      }
    }
  }

  lemma OneMore(s: set<Name>, p: Name)
    requires p !in s
    ensures |s + {p}| == |s| + 1 && s + {p} != {}
  {}

  lemma TallyStep(x: Sets, u: Use, preferred: bool, p: Name, s: Scan)
    requires Tallied(x, s) && p !in x.failing && p !in x.healthy && (s.best.None? ==> preferred)
    ensures Tallied(AddTo(x, u, p), StepBy(u, preferred, p, s))
  {
    match u
    case Healthy => OneMore(x.healthy, p);
    case Failing => OneMore(x.failing, p);
    case Stale => assert p in x.stale + {p};
    case LowConfidence => assert p in x.low + {p};
    case Undeclared => assert p in x.undeclared + {p};
    case OtherGeneration => assert p in x.other + {p};
  }

  lemma ScanKeeps(b: Book, v: Viewpoint, link: LinkKey, generation: nat, seen: set<Name>, p: Name, s: Scan)
    requires Place(link, p) in b.failure && p !in seen && Scanned(b, v, link, generation, seen, s)
    requires s.best.Some? ==> Place(link, s.best.value) in b.failure
    ensures Scanned(b, v, link, generation, seen + {p}, ScanStep(b, v, link, generation, p, s))
  {
    BestKeeps(b, v, link, generation, seen, p, s);
    hide Counting, UseOf, Preferred, Cited, Tallied, SetsOf, AddTo, StepBy;
    SetsStep(b, v, link, generation, seen, p);
    BestCited(b, v, link, generation, seen, s);
    TallyStep(SetsOf(b, v, link, generation, seen), UseOf(b, v, generation, Place(link, p)),
              s.best.None? || Preferred(b, v, link, p, s.best.value), p, s);
  }

  lemma BestKeeps(b: Book, v: Viewpoint, link: LinkKey, generation: nat, seen: set<Name>, p: Name, s: Scan)
    requires Place(link, p) in b.failure && p !in seen && Scanned(b, v, link, generation, seen, s)
    requires s.best.Some? ==> Place(link, s.best.value) in b.failure
    ensures forall q :: q in Counting(b, v, link, generation, Failing) * (seen + {p}) ==> Place(link, q) in b.failure
    ensures var after := ScanStep(b, v, link, generation, p, s).best;
            after.Some? ==> Cited(b, v, link, Counting(b, v, link, generation, Failing) * (seen + {p}), after.value)
  {
    hide Counting, UseOf, Preferred, Cited, Tallied, SetsOf;
    BestCited(b, v, link, generation, seen, s);
    CountingPlaces(b, v, link, generation, Failing);
    CountingStep(b, v, link, generation, seen, p, Failing);
    CitedStep(b, v, link, Counting(b, v, link, generation, Failing) * seen, s.best, p);
  }

  lemma BestCited(b: Book, v: Viewpoint, link: LinkKey, generation: nat, seen: set<Name>, s: Scan)
    requires Scanned(b, v, link, generation, seen, s)
    ensures s.best.None? <==> Counting(b, v, link, generation, Failing) * seen == {}
  {}

  lemma CountingPlaces(b: Book, v: Viewpoint, link: LinkKey, generation: nat, u: Use)
    ensures forall q :: q in Counting(b, v, link, generation, u) ==> Place(link, q) in b.failure && UseOf(b, v, generation, Place(link, q)) == u
    ensures Counting(b, v, link, generation, u) <= Reporters(b.failure, link)
  {}

  function Conclude(b: Book, v: Viewpoint, link: LinkKey, s: Scan): FailureVerdict
    requires s.best.Some? ==> Place(link, s.best.value) in b.failure
  {
    if s.failing + s.healthy == 0 then Unqualified(s.stale, s.low, s.undeclared, s.other)
    else if Agreed(v.policy.agreement, s.failing, s.healthy) && s.best.Some? then
      var held := b.failure[Place(link, s.best.value)];
      Established(held.report.stamp.publisher, held.report.stamp.incarnation, held.report.stamp.seqno, held.digest)
    else if Contradicted(v.policy.agreement, s.failing, s.healthy) then NotEstablished(Outcome.Indeterminate, EVIDENCE_CONFLICTED, [])
    else NotEstablished(Outcome.Refused, SUBJECT_NOT_FAILED, [])
  }

  lemma ScanDecides(b: Book, v: Viewpoint, link: LinkKey, generation: nat, s: Scan)
    requires Reporters(b.failure, link) != {}
    requires Scanned(b, v, link, generation, Reporters(b.failure, link), s)
    ensures s.best.Some? ==> Place(link, s.best.value) in b.failure
    ensures Conclude(b, v, link, s) == EvaluateFailure(b, v, link, generation)
  {
    hide Counting, Cited, Unqualified, Reporters;
    AllSeen(b, v, link, generation);
    CountingPlaces(b, v, link, generation, Failing);
    if s.best.Some? {
      var failing := Counting(b, v, link, generation, Failing);
      CitedMember(b, v, link, failing, s.best.value);
      CitedIsUnique(b, v, link, failing, s.best.value, CitedOf(b, v, link, failing));
    }
  }

  lemma AllSeen(b: Book, v: Viewpoint, link: LinkKey, generation: nat)
    ensures SetsOf(b, v, link, generation, Reporters(b.failure, link))
         == Sets(Counting(b, v, link, generation, Use.Stale), Counting(b, v, link, generation, LowConfidence),
                 Counting(b, v, link, generation, Undeclared), Counting(b, v, link, generation, OtherGeneration),
                 Counting(b, v, link, generation, Failing), Counting(b, v, link, generation, Healthy))
  {
    hide Counting, Reporters;
    forall u: Use
      ensures Counting(b, v, link, generation, u) * Reporters(b.failure, link) == Counting(b, v, link, generation, u)
    {
      CountingPlaces(b, v, link, generation, u);
    }
  }

  lemma CitedMember(b: Book, v: Viewpoint, link: LinkKey, failing: set<Name>, p: Name)
    requires forall q :: q in failing ==> Place(link, q) in b.failure
    requires Cited(b, v, link, failing, p)
    ensures p in failing
  {}

  lemma ReportersPlaces<R>(t: Table<R>, link: LinkKey)
    ensures forall p :: p in Reporters(t, link) <==> Place(link, p) in t
  {
    forall p | Place(link, p) in t ensures p in Reporters(t, link) {
      assert Place(link, p).publisher == p;
    }
  }

  method JudgeFailure(b: Book, v: Viewpoint, link: LinkKey, generation: nat) returns (verdict: FailureVerdict)
    ensures verdict == EvaluateFailure(b, v, link, generation)
  {
    hide EvaluateFailure, Scanned, ScanStep, Conclude;
    var todo := Reporters(b.failure, link);
    ReportersPlaces(b.failure, link);
    if todo == {} {
      NothingReported(b, v, link, generation);
      return NotEstablished(Outcome.Unknown, EVIDENCE_MISSING, []);
    }
    var s := Scan(false, false, false, false, 0, 0, None);
    ghost var seen: set<Name> := {};
    ScanStart(b, v, link, generation, s);
    while todo != {}
      invariant seen + todo == Reporters(b.failure, link) && seen !! todo
      invariant Scanned(b, v, link, generation, seen, s)
      decreases |todo|
    {
      LeastExists(todo);
      var p :| p in todo && forall m :: m in todo ==> m == p || NameLess(p, m);
      BestPlace(b, v, link, generation, seen, s);
      ScanKeeps(b, v, link, generation, seen, p, s);
      s := ScanStep(b, v, link, generation, p, s);
      todo, seen := todo - {p}, seen + {p};
    }
    assert seen == Reporters(b.failure, link);
    ScanDecides(b, v, link, generation, s);
    verdict := Conclude(b, v, link, s);
  }

  lemma NothingReported(b: Book, v: Viewpoint, link: LinkKey, generation: nat)
    requires Reporters(b.failure, link) == {}
    ensures EvaluateFailure(b, v, link, generation) == NotEstablished(Outcome.Unknown, EVIDENCE_MISSING, [])
  {}

  lemma ScanStart(b: Book, v: Viewpoint, link: LinkKey, generation: nat, s: Scan)
    requires s == Scan(false, false, false, false, 0, 0, None)
    ensures Scanned(b, v, link, generation, {}, s)
  {
    hide Counting, Cited;
  }

  lemma BestPlace(b: Book, v: Viewpoint, link: LinkKey, generation: nat, seen: set<Name>, s: Scan)
    requires Scanned(b, v, link, generation, seen, s)
    ensures s.best.Some? ==> Place(link, s.best.value) in b.failure
  {
    CountingPlaces(b, v, link, generation, Failing);
  }

  // ---- what an established failure rests on ----

  /** Established means exactly: someone qualified says so, and the rule is met. The cited observation is one of theirs. */
  lemma EstablishedMeans(b: Book, v: Viewpoint, link: LinkKey, generation: nat)
    ensures EvaluateFailure(b, v, link, generation).Established?
            <==> Counting(b, v, link, generation, Failing) != {}
                 && Agreed(v.policy.agreement, |Counting(b, v, link, generation, Failing)|, |Counting(b, v, link, generation, Healthy)|)
    ensures EvaluateFailure(b, v, link, generation).Established? ==>
              exists p :: p in Counting(b, v, link, generation, Failing)
                          && EvaluateFailure(b, v, link, generation).digest == b.failure[Place(link, p)].digest
  {
    hide UseOf;
    CountingPlaces(b, v, link, generation, Failing);
    CountingPlaces(b, v, link, generation, Healthy);
    var failing, healthy := Counting(b, v, link, generation, Failing), Counting(b, v, link, generation, Healthy);
    if EvaluateFailure(b, v, link, generation).Established? {
      assert failing != {};
      var cited := CitedOf(b, v, link, failing);
      assert cited in failing;
    }
  }

  /** What a qualified failing observation is. */
  lemma FailingMeans(b: Book, v: Viewpoint, link: LinkKey, generation: nat, p: Name)
    ensures p in Counting(b, v, link, generation, Failing) <==>
              && Place(link, p) in b.failure
              && var held := b.failure[Place(link, p)];
                 && p in b.publishers && b.publishers[p].incarnation == held.report.stamp.incarnation
                 && held.report.generation == generation && held.report.topologyGeneration == v.topologyGeneration
                 && held.receipt.coordinator == v.incarnation
                 && held.receipt.tick <= v.tick && v.tick - held.receipt.tick <= v.policy.evidenceMaxAge
                 && held.report.confidence >= v.policy.minFailureConfidence
                 && IsFailure(held.report.state, v.policy.treatDegradedAsFailed)
  {
    if Place(link, p) in b.failure { assert Place(link, p).publisher == p; }
  }

  /** A book with one more publisher's observation of the link. */
  predicate Extends(b: Book, c: Book, link: LinkKey, p: Name) {
    && Place(link, p) !in b.failure && Place(link, p) in c.failure
    && c.failure.Keys == b.failure.Keys + {Place(link, p)}
    && (forall x :: x in b.failure ==> c.failure[x] == b.failure[x])
    && c.publishers == b.publishers
  }

  lemma ExtendsCounting(b: Book, c: Book, v: Viewpoint, link: LinkKey, generation: nat, p: Name, u: Use)
    requires Extends(b, c, link, p)
    ensures Counting(c, v, link, generation, u)
         == Counting(b, v, link, generation, u) + (if UseOf(c, v, generation, Place(link, p)) == u then {p} else {})
    ensures p !in Counting(b, v, link, generation, u)
  {
    CountingPlaces(b, v, link, generation, u);
    forall x | x in b.failure ensures UseOf(c, v, generation, x) == UseOf(b, v, generation, x) {}
    hide UseOf;
  }

  /**
   * Adding an observation that does not qualify never changes whether failure is established;
   * adding a qualified healthy one never establishes what was not.
   */
  lemma AddingEvidence(b: Book, c: Book, v: Viewpoint, link: LinkKey, generation: nat, p: Name)
    requires Extends(b, c, link, p)
    ensures var use := UseOf(c, v, generation, Place(link, p));
            && (use != Failing && use != Healthy ==>
                  (EvaluateFailure(c, v, link, generation).Established? <==> EvaluateFailure(b, v, link, generation).Established?))
            && (use == Healthy ==>
                  (EvaluateFailure(c, v, link, generation).Established? ==> EvaluateFailure(b, v, link, generation).Established?))
            && (use == Failing ==>
                  (EvaluateFailure(b, v, link, generation).Established? ==> EvaluateFailure(c, v, link, generation).Established?))
  {
    hide UseOf, EvaluateFailure, Counting, Extends;
    EstablishedMeans(b, v, link, generation);
    EstablishedMeans(c, v, link, generation);
    ExtendsCounting(b, c, v, link, generation, p, Failing);
    ExtendsCounting(b, c, v, link, generation, p, Healthy);
  }

  // ---- how an observation counts, and which one is cited ----

  /** The publisher still reports under the incarnation that made the observation. */
  predicate StillTheirs(b: Book, x: Place)
    requires x in b.failure
  {
    x.publisher in b.publishers && b.publishers[x.publisher].incarnation == b.failure[x].report.stamp.incarnation
  }

  predicate OfGenerations(r: FailureReport, v: Viewpoint, generation: nat) {
    r.generation == generation && r.topologyGeneration == v.topologyGeneration
  }

  /** Received by this process, not later than now, and not longer ago than the window. */
  predicate InWindow(receipt: Receipt, v: Viewpoint) {
    receipt.coordinator == v.incarnation && receipt.tick <= v.tick && v.tick - receipt.tick <= v.policy.evidenceMaxAge
  }

  /** The states that count as failure: down, unusable and, if the policy says so, degraded. */
  predicate Failed(s: ObservationState, p: Policy) { s == Down || s == Unusable || (s == Degraded && p.treatDegradedAsFailed) }

  /** How each retained observation counts, in its own terms. */
  lemma UsesMean(b: Book, v: Viewpoint, link: LinkKey, generation: nat, p: Name)
    requires Place(link, p) in b.failure
    ensures var x := Place(link, p);
            var r := b.failure[x].report;
            var dependable := StillTheirs(b, x) && OfGenerations(r, v, generation) && InWindow(b.failure[x].receipt, v);
            var confident := r.confidence >= v.policy.minFailureConfidence;
            && (p in Counting(b, v, link, generation, Use.Stale) <==>
                  !StillTheirs(b, x) || (OfGenerations(r, v, generation) && !InWindow(b.failure[x].receipt, v)))
            && (p in Counting(b, v, link, generation, OtherGeneration) <==> StillTheirs(b, x) && !OfGenerations(r, v, generation))
            && (p in Counting(b, v, link, generation, LowConfidence) <==> dependable && !confident)
            && (p in Counting(b, v, link, generation, Undeclared) <==> dependable && confident && r.state == ObservationState.Unknown)
            && (p in Counting(b, v, link, generation, Failing) <==> dependable && confident && Failed(r.state, v.policy))
            && (p in Counting(b, v, link, generation, Healthy) <==>
                  dependable && confident && r.state != ObservationState.Unknown && !Failed(r.state, v.policy))
  {
    CountingIs(b, v, link, generation, p);
    hide Counting;
  }

  lemma CountingIs(b: Book, v: Viewpoint, link: LinkKey, generation: nat, p: Name)
    requires Place(link, p) in b.failure
    ensures forall u :: p in Counting(b, v, link, generation, u) <==> UseOf(b, v, generation, Place(link, p)) == u
  {
    hide UseOf;
    forall u | UseOf(b, v, generation, Place(link, p)) == u ensures p in Counting(b, v, link, generation, u) {
      assert Place(link, p).publisher == p;
    }
  }

  /** Stronger evidence: more confident, or as confident and received later, or both the same and first by name. */
  predicate Stronger(confidence: nat, received: nat, name: Name, confidence': nat, received': nat, name': Name) {
    || confidence > confidence'
    || (confidence == confidence' && received > received')
    || (confidence == confidence' && received == received' && NameLess(name, name'))
  }

  function ReasonIf(given: bool, code: nat): seq<Reason> { if given then [Because(code)] else [] }

  /**
   * The verdict in the evidence's own terms. Failure is established when someone who qualifies
   * reports it and either nobody who qualifies contradicts or, by majority, more report it than
   * contradict; it then cites the strongest of the failing observations. Otherwise the verdict says
   * which of missing, unqualified, contradictory and contrary evidence there is.
   */
  lemma VerdictMeans(b: Book, v: Viewpoint, link: LinkKey, generation: nat)
    ensures var verdict := EvaluateFailure(b, v, link, generation);
            var failing, healthy := Counting(b, v, link, generation, Failing), Counting(b, v, link, generation, Healthy);
            var stale, low := Counting(b, v, link, generation, Use.Stale), Counting(b, v, link, generation, LowConfidence);
            var undeclared, other := Counting(b, v, link, generation, Undeclared), Counting(b, v, link, generation, OtherGeneration);
            var all := v.policy.agreement == Unanimous;
            if failing == {} && healthy == {} then
              && verdict.NotEstablished? && verdict.outcome == Outcome.Unknown
              && verdict.reason == (if stale != {} then EVIDENCE_STALE else if low != {} then EVIDENCE_LOW_CONFIDENCE
                                    else if undeclared != {} then EVIDENCE_UNKNOWN else if other != {} then GENERATION_MISMATCH else EVIDENCE_MISSING)
              && verdict.extra == ReasonIf(stale != {}, EVIDENCE_STALE) + ReasonIf(low != {}, EVIDENCE_LOW_CONFIDENCE)
                                  + ReasonIf(undeclared != {}, EVIDENCE_UNKNOWN) + ReasonIf(other != {}, GENERATION_MISMATCH)
            else if failing != {} && (if all then healthy == {} else |failing| > |healthy|) then
              exists p :: Cites(b, link, failing, p)
                          && var held := b.failure[Place(link, p)];
                             verdict == Established(held.report.stamp.publisher, held.report.stamp.incarnation, held.report.stamp.seqno, held.digest)
            else if (if all then failing != {} else |failing| == |healthy|) then verdict == NotEstablished(Outcome.Indeterminate, EVIDENCE_CONFLICTED, [])
            else verdict == NotEstablished(Outcome.Refused, SUBJECT_NOT_FAILED, [])
  {
    hide Counting, Cites, Cited;
    var failing, healthy := Counting(b, v, link, generation, Failing), Counting(b, v, link, generation, Healthy);
    SomeoneReported(b, v, link, generation);
    CountingPlaces(b, v, link, generation, Failing);
    assert failing != {} ==> |failing| > 0;
    assert healthy != {} ==> |healthy| > 0;
    if failing != {} { CitedIsStrongest(b, v, link, generation, CitedOf(b, v, link, failing)); }
  }

  lemma SomeoneReported(b: Book, v: Viewpoint, link: LinkKey, generation: nat)
    ensures Reporters(b.failure, link) == {} ==> forall u :: Counting(b, v, link, generation, u) == {}
  {
    hide Reporters;
    forall u ensures Counting(b, v, link, generation, u) <= Reporters(b.failure, link) { CountingPlaces(b, v, link, generation, u); }
  }

  /** One of the failing observations, and stronger than every other of them. */
  ghost predicate Cites(b: Book, link: LinkKey, failing: set<Name>, p: Name) {
    && p in failing && Place(link, p) in b.failure
    && forall q :: q in failing && q != p ==>
         Place(link, q) in b.failure
         && Stronger(b.failure[Place(link, p)].report.confidence, b.failure[Place(link, p)].receipt.tick, p,
                     b.failure[Place(link, q)].report.confidence, b.failure[Place(link, q)].receipt.tick, q)
  }

  lemma CitedIsStrongest(b: Book, v: Viewpoint, link: LinkKey, generation: nat, p: Name)
    requires forall q :: q in Counting(b, v, link, generation, Failing) ==> Place(link, q) in b.failure
    requires Cited(b, v, link, Counting(b, v, link, generation, Failing), p)
    ensures Cites(b, link, Counting(b, v, link, generation, Failing), p)
  {
    hide Counting, NameLess;
    var failing := Counting(b, v, link, generation, Failing);
    forall q | q in failing ensures Classify(b.failure[Place(link, q)].receipt, v).1 == v.tick - b.failure[Place(link, q)].receipt.tick {
      FailingMeans(b, v, link, generation, q);
    }
  }
}
