/** Resolving a requested candidate against the topology and the retained evidence. */
module Resolution {
  import opened Basics
  import opened Records
  import opened Evidence
  import opened Verdicts
  import Selector

  datatype Candidate = Candidate(link: LinkKey, expectedGeneration: nat)

  const NO_REPORT := ReplacementReport(NO_LINK, 0, 0, ObservationState.Unknown, 0, 0, 0, false, 0, Stamp([], ZERO_INCARNATION, 0, 0, 0))

  /** The observation is its publisher's current one and binds the current generations. */
  predicate Admissible(b: Book, v: Viewpoint, generation: nat, x: Place)
    requires x in b.replacement
  {
    var held := b.replacement[x];
    && x.publisher in b.publishers && b.publishers[x.publisher].incarnation == held.report.stamp.incarnation
    && held.report.generation == generation && held.report.topologyGeneration == v.topologyGeneration
  }

  predicate Qualified(b: Book, v: Viewpoint, x: Place)
    requires x in b.replacement
  {
    Classify(b.replacement[x].receipt, v).0.Current? && b.replacement[x].report.confidence >= v.policy.minReplacementConfidence
  }

  /** More confident, or as confident and fresher, or both the same and earlier by name. */
  predicate Outranks(b: Book, v: Viewpoint, x: Place, y: Place)
    requires x in b.replacement && y in b.replacement
  {
    var p, q := b.replacement[x], b.replacement[y];
    || p.report.confidence > q.report.confidence
    || (p.report.confidence == q.report.confidence
        && (Classify(p.receipt, v).1 < Classify(q.receipt, v).1
            || (Classify(p.receipt, v).1 == Classify(q.receipt, v).1 && NameLess(x.publisher, q.report.stamp.publisher))))
  }

  /** The chosen observation after one more; an unqualified one is taken only when nothing was chosen yet. */
  function NextBest(b: Book, v: Viewpoint, generation: nat, best: Option<Place>, x: Place): (r: Option<Place>)
    requires x in b.replacement && (best.Some? ==> best.value in b.replacement)
    ensures r == best || r == Some(x)
  {
    if !Admissible(b, v, generation, x) then best
    else if best.None? then Some(x)
    else if Qualified(b, v, x) && Outranks(b, v, x, best.value) then Some(x)
    else best
  }

  /** The choice over the publishers in `todo`, in name order. */
  ghost function Choose(b: Book, v: Viewpoint, link: LinkKey, generation: nat, todo: set<Name>, best: Option<Place>): (r: Option<Place>)
    requires forall p :: p in todo ==> Place(link, p) in b.replacement
    requires best.Some? ==> best.value in b.replacement
    ensures r.Some? ==> r.value in b.replacement && (r == best || (r.value.link == link && r.value.publisher in todo))
    decreases |todo|
  {
    if todo == {} then best
    else
      var p := Least(todo);
      Choose(b, v, link, generation, todo - {p}, NextBest(b, v, generation, best, Place(link, p)))
  }

  /** Another admissible, qualified observation that disagrees with the chosen one. */
  predicate Disagrees(b: Book, v: Viewpoint, generation: nat, chosen: Place, x: Place)
    requires x in b.replacement && chosen in b.replacement
  {
    x != chosen && Admissible(b, v, generation, x) && Qualified(b, v, x)
    && b.replacement[x].report.state != b.replacement[chosen].report.state
  }

  ghost predicate Conflicted(b: Book, v: Viewpoint, link: LinkKey, generation: nat, chosen: Place)
    requires chosen in b.replacement
  {
    exists x :: x in b.replacement && x.link == link && Disagrees(b, v, generation, chosen, x)
  }

  function Bare(c: Candidate, generation: nat, matched: bool): Selector.Resolved {
    Selector.Resolved(c.link, generation, false, NO_REPORT, ZERO_DIGEST, Freshness.PriorIncarnation, 0,
                      c.expectedGeneration != 0, matched, false)
  }

  function Backed(b: Book, v: Viewpoint, c: Candidate, generation: nat, chosen: Place, conflicted: bool): Selector.Resolved
    requires chosen in b.replacement
  {
    var held := b.replacement[chosen];
    var (freshness, age) := Classify(held.receipt, v);
    Bare(c, generation, c.expectedGeneration == 0 || c.expectedGeneration == generation)
      .(evidencePresent := true, report := held.report, evidenceDigest := held.digest, freshness := freshness, age := age,
        conflicted := conflicted)
  }

  ghost function ChosenFor(b: Book, v: Viewpoint, link: LinkKey, generation: nat): (r: Option<Place>)
    ensures r.Some? ==> r.value in b.replacement && r.value.link == link
  {
    ReportersPlaces(b.replacement, link);
    Choose(b, v, link, generation, Reporters(b.replacement, link), None)
  }

  ghost function Resolve(b: Book, v: Viewpoint, links: seq<LinkDefinition>, c: Candidate): (r: Selector.Resolved)
    ensures r.candidate == c.link
  {
    var definition := Find(links, c.link);
    if definition.None? then Bare(c, c.expectedGeneration, false)
    else
      var generation := definition.value.generation;
      var chosen := ChosenFor(b, v, c.link, generation);
      if chosen.None? then Bare(c, generation, c.expectedGeneration == 0 || c.expectedGeneration == generation)
      else Backed(b, v, c, generation, chosen.value, Conflicted(b, v, c.link, generation, chosen.value))
  }

  ghost function ResolveAll(b: Book, v: Viewpoint, links: seq<LinkDefinition>, cs: seq<Candidate>): (r: seq<Selector.Resolved>)
    ensures |r| == |cs| && forall i :: 0 <= i < |cs| ==> r[i] == Resolve(b, v, links, cs[i])
  {
    seq(|cs|, i requires 0 <= i < |cs| => Resolve(b, v, links, cs[i]))
  }

  method FindDefinition(links: seq<LinkDefinition>, key: LinkKey) returns (r: Option<LinkDefinition>)
    ensures r == Find(links, key)
  {
    for i := 0 to |links|
      invariant Find(links, key) == Find(links[i..], key)
    {
      if links[i].link == key {
        return Some(links[i]);
      }
    }
    return None;
  }

  method ChooseEvidence(b: Book, v: Viewpoint, link: LinkKey, generation: nat) returns (best: Option<Place>)
    ensures best == ChosenFor(b, v, link, generation)
  {
    hide NextBest;
    best := None;
    var todo := Reporters(b.replacement, link);
    ReportersPlaces(b.replacement, link);
    while todo != {}
      invariant forall p :: p in todo ==> Place(link, p) in b.replacement
      invariant best.Some? ==> best.value in b.replacement
      invariant Choose(b, v, link, generation, todo, best) == ChosenFor(b, v, link, generation)
      decreases |todo|
    {
      LeastExists(todo);
      var p :| p in todo && forall m :: m in todo ==> m == p || NameLess(p, m);
      LeastIsUnique(todo, p);
      best := NextBest(b, v, generation, best, Place(link, p));
      todo := todo - {p};
    }
  }

  method FindConflict(b: Book, v: Viewpoint, link: LinkKey, generation: nat, chosen: Place) returns (found: bool)
    requires chosen in b.replacement
    ensures found == Conflicted(b, v, link, generation, chosen)
  {
    hide Disagrees;
    var todo := Reporters(b.replacement, link);
    ReportersPlaces(b.replacement, link);
    ghost var cleared: set<Name> := {};
    while todo != {}
      invariant todo + cleared == Reporters(b.replacement, link)
      invariant forall p :: p in cleared ==> !Disagrees(b, v, generation, chosen, Place(link, p))
      decreases |todo|
    {
      var p :| p in todo;
      if Disagrees(b, v, generation, chosen, Place(link, p)) {
        return true;
      }
      todo, cleared := todo - {p}, cleared + {p};
    }
    forall x | x in b.replacement && x.link == link ensures !Disagrees(b, v, generation, chosen, x) {
      assert x == Place(link, x.publisher);
      assert x.publisher in cleared;
    }
    return false;
  }

  method ResolveCandidate(b: Book, v: Viewpoint, links: seq<LinkDefinition>, c: Candidate) returns (r: Selector.Resolved)
    ensures r == Resolve(b, v, links, c)
  {
    var definition := FindDefinition(links, c.link);
    if definition.None? {
      return Bare(c, c.expectedGeneration, false);
    }
    var generation := definition.value.generation;
    var chosen := ChooseEvidence(b, v, c.link, generation);
    if chosen.None? {
      return Bare(c, generation, c.expectedGeneration == 0 || c.expectedGeneration == generation);
    }
    var conflicted := FindConflict(b, v, c.link, generation, chosen.value);
    return Backed(b, v, c, generation, chosen.value, conflicted);
  }

  // ---- what a resolved candidate rests on ----

  lemma {:induction false} ChooseAdmissible(b: Book, v: Viewpoint, link: LinkKey, generation: nat, todo: set<Name>, best: Option<Place>)
    requires forall p :: p in todo ==> Place(link, p) in b.replacement
    requires best.Some? ==> best.value in b.replacement && Admissible(b, v, generation, best.value)
    ensures var r := Choose(b, v, link, generation, todo, best);
            && (r.Some? ==> Admissible(b, v, generation, r.value))
            && (r.None? <==> best.None? && forall p :: p in todo ==> !Admissible(b, v, generation, Place(link, p)))
    decreases |todo|
  {
    hide Admissible, Qualified, Outranks;
    if todo != {} {
      var p := Least(todo);
      var next := NextBest(b, v, generation, best, Place(link, p));
      ChooseAdmissible(b, v, link, generation, todo - {p}, next);
      if best.None? && next.None? {
        forall q | q in todo && Choose(b, v, link, generation, todo, best).None? ensures !Admissible(b, v, generation, Place(link, q)) {
          if q != p { assert q in todo - {p}; }
        }
      }
    }
  }

  /** A qualified observation stands against `best` when it is of the same link, admissible, and outranks it. */
  predicate Stands(b: Book, v: Viewpoint, link: LinkKey, generation: nat, best: Place, p: Name)
    requires Place(link, p) in b.replacement && best in b.replacement
  {
    Admissible(b, v, generation, Place(link, p)) && Qualified(b, v, Place(link, p)) && Outranks(b, v, Place(link, p), best)
  }

  lemma {:induction false} ChoiceQualifies(b: Book, v: Viewpoint, link: LinkKey, generation: nat, todo: set<Name>, best: Place)
    requires forall p :: p in todo ==> Place(link, p) in b.replacement
    requires best in b.replacement
    ensures Choose(b, v, link, generation, todo, Some(best)).Some?
    ensures Qualified(b, v, Choose(b, v, link, generation, todo, Some(best)).value)
            <==> Qualified(b, v, best) || exists p :: p in todo && Stands(b, v, link, generation, best, p)
    decreases |todo|
  {
    hide Admissible, Qualified, Outranks;
    if todo != {} {
      var p := Least(todo);
      var next := NextBest(b, v, generation, Some(best), Place(link, p));
      ChoiceQualifies(b, v, link, generation, todo - {p}, next.value);
      assert todo == (todo - {p}) + {p};
    }
  }

  /**
   * The scan takes the first admissible observation whether or not it qualifies, and lets a later
   * qualified one replace it only by outranking it. So the chosen evidence qualifies exactly when
   * the first does, or some qualified observation outranks the first.
   */
  lemma ChosenQualifiesExactlyWhen(b: Book, v: Viewpoint, link: LinkKey, generation: nat, first: Name)
    requires first in Reporters(b.replacement, link) && Place(link, first) in b.replacement
    requires Admissible(b, v, generation, Place(link, first))
    requires forall p :: p in Reporters(b.replacement, link) && Place(link, p) in b.replacement && Admissible(b, v, generation, Place(link, p)) ==>
                         p == first || NameLess(first, p)
    ensures ChosenFor(b, v, link, generation).Some?
    ensures Qualified(b, v, ChosenFor(b, v, link, generation).value)
            <==> Qualified(b, v, Place(link, first))
                 || exists p :: p in Reporters(b.replacement, link) && Place(link, p) in b.replacement && p != first
                                && Stands(b, v, link, generation, Place(link, first), p)
  {
    ReportersPlaces(b.replacement, link);
    FirstIsTaken(b, v, link, generation, Reporters(b.replacement, link), first);
  }

  lemma {:induction false} FirstIsTaken(b: Book, v: Viewpoint, link: LinkKey, generation: nat, todo: set<Name>, first: Name)
    requires forall p :: p in todo ==> Place(link, p) in b.replacement
    requires first in todo && Admissible(b, v, generation, Place(link, first))
    requires forall p :: p in todo && Admissible(b, v, generation, Place(link, p)) ==> p == first || NameLess(first, p)
    ensures Choose(b, v, link, generation, todo, None).Some?
    ensures Qualified(b, v, Choose(b, v, link, generation, todo, None).value)
            <==> Qualified(b, v, Place(link, first))
                 || exists p :: p in todo && p != first && Stands(b, v, link, generation, Place(link, first), p)
    decreases |todo|
  {
    hide Admissible, Qualified, Outranks;
    var p := Least(todo);
    if p == first {
      ChoiceQualifies(b, v, link, generation, todo - {p}, Place(link, p));
    } else {
      if Admissible(b, v, generation, Place(link, p)) { NameLessAsymmetric(p, first); }
      FirstIsTaken(b, v, link, generation, todo - {p}, first);
    }
  }

  /** What an eligible candidate's evidence is: a current publisher's, for the current generations, confident, in the window, uncontradicted. */
  lemma EligibleRestsOnEvidence(b: Book, v: Viewpoint, links: seq<LinkDefinition>, c: Candidate, input: Selector.Input) returns (x: Place)
    requires input.policy == v.policy
    requires Selector.Assess(input, Resolve(b, v, links, c)).verdict.Eligible?
    ensures x in b.replacement && x.link == c.link
    ensures Find(links, c.link).Some?
    ensures c.expectedGeneration == 0 || c.expectedGeneration == Find(links, c.link).value.generation
    ensures Resolve(b, v, links, c).generation == Find(links, c.link).value.generation
    ensures AdmissibleAt(b, v, Find(links, c.link).value.generation, x) && QualifiedAt(b, v, x)
    ensures b.replacement[x].report.state.Up? || (b.replacement[x].report.state.Degraded? && v.policy.allowDegraded)
    ensures b.replacement[x].report.capacity >= input.minCapacity
    ensures v.policy.requireAdjacency ==> b.replacement[x].report.adjacencyAuthorized
    ensures forall y :: y in b.replacement && y.link == c.link
                        && AdmissibleAt(b, v, Find(links, c.link).value.generation, y) && QualifiedAt(b, v, y) ==>
                          b.replacement[y].report.state == b.replacement[x].report.state
  {
    var generation := Find(links, c.link).value.generation;
    x := ChosenFor(b, v, c.link, generation).value;
    ReportersPlaces(b.replacement, c.link);
    ChooseAdmissible(b, v, c.link, generation, Reporters(b.replacement, c.link), None);
    forall y | y in b.replacement && y.link == c.link && Admissible(b, v, generation, y) && Qualified(b, v, y)
      ensures b.replacement[y].report.state == b.replacement[x].report.state
    {
      assert !Disagrees(b, v, generation, x, y);
    }
  }

  // ---- which observation is chosen ----

  /** Every retained observation bears the name of the publisher it is kept under. */
  predicate Signed(b: Book) {
    forall x :: x in b.replacement ==> b.replacement[x].report.stamp.publisher == x.publisher
  }

  lemma OutranksOrder(b: Book, v: Viewpoint, x: Place, y: Place, z: Place)
    requires Signed(b) && x in b.replacement && y in b.replacement && z in b.replacement
    ensures !Outranks(b, v, x, x)
    ensures Outranks(b, v, x, y) ==> !Outranks(b, v, y, x)
    ensures Outranks(b, v, x, y) && Outranks(b, v, y, z) ==> Outranks(b, v, x, z)
  {
    hide Classify;
    NameLessIrreflexive(x.publisher);
    if NameLess(x.publisher, y.publisher) {
      NameLessAsymmetric(x.publisher, y.publisher);
      if NameLess(y.publisher, z.publisher) { NameLessTransitive(x.publisher, y.publisher, z.publisher); }
    }
  }

  lemma {:induction false} ChoiceIsStrongest(b: Book, v: Viewpoint, link: LinkKey, generation: nat, todo: set<Name>, best: Place)
    requires Signed(b) && best in b.replacement && forall p :: p in todo ==> Place(link, p) in b.replacement
    ensures Choose(b, v, link, generation, todo, Some(best)).Some?
    ensures var r := Choose(b, v, link, generation, todo, Some(best)).value;
            && (r == best || (Qualified(b, v, r) && Outranks(b, v, r, best)))
            && forall p :: p in todo && Admissible(b, v, generation, Place(link, p)) && Qualified(b, v, Place(link, p)) ==> !Outranks(b, v, Place(link, p), r)
    decreases |todo|
  {
    hide Admissible, Qualified, Outranks;
    if todo == {} {
    } else {
      var p := Least(todo);
      var x := Place(link, p);
      var next := NextBest(b, v, generation, Some(best), x).value;
      ChoiceIsStrongest(b, v, link, generation, todo - {p}, next);
      var r := Choose(b, v, link, generation, todo, Some(best)).value;
      OutranksOrder(b, v, r, next, best);
      OutranksOrder(b, v, x, r, best);
      OutranksOrder(b, v, r, x, x);
      assert todo == (todo - {p}) + {p};
    }
  }

  lemma {:induction false} FirstThenStrongest(b: Book, v: Viewpoint, link: LinkKey, generation: nat, todo: set<Name>, first: Name)
    requires Signed(b) && forall p :: p in todo ==> Place(link, p) in b.replacement
    requires first in todo && Admissible(b, v, generation, Place(link, first))
    requires forall p :: p in todo && Admissible(b, v, generation, Place(link, p)) ==> p == first || NameLess(first, p)
    ensures Choose(b, v, link, generation, todo, None).Some?
    ensures var r := Choose(b, v, link, generation, todo, None).value;
            && (r == Place(link, first) || (Qualified(b, v, r) && Outranks(b, v, r, Place(link, first))))
            && forall p :: p in todo && Admissible(b, v, generation, Place(link, p)) && Qualified(b, v, Place(link, p)) ==> !Outranks(b, v, Place(link, p), r)
    decreases |todo|
  {
    hide Admissible, Qualified, Outranks;
    var p := Least(todo);
    if p == first {
      ChoiceIsStrongest(b, v, link, generation, todo - {p}, Place(link, p));
      var r := Choose(b, v, link, generation, todo, None).value;
      OutranksOrder(b, v, Place(link, p), r, r);
      OutranksOrder(b, v, r, Place(link, p), r);
    } else {
      if Admissible(b, v, generation, Place(link, p)) { NameLessAsymmetric(p, first); }
      FirstThenStrongest(b, v, link, generation, todo - {p}, first);
    }
    assert todo == (todo - {p}) + {p};
  }

  /** The observation at `x` against the one at `y`: more confident, else received later, else first by name. */
  predicate StrongerAt(b: Book, x: Place, y: Place)
    requires x in b.replacement && y in b.replacement
  {
    Stronger(b.replacement[x].report.confidence, b.replacement[x].receipt.tick, x.publisher,
             b.replacement[y].report.confidence, b.replacement[y].receipt.tick, y.publisher)
  }

  /** In its own terms: the publisher's current one, for both generations in force. */
  predicate AdmissibleAt(b: Book, v: Viewpoint, generation: nat, x: Place)
    requires x in b.replacement
  {
    var r := b.replacement[x].report;
    && x.publisher in b.publishers && b.publishers[x.publisher].incarnation == r.stamp.incarnation
    && r.generation == generation && r.topologyGeneration == v.topologyGeneration
  }

  predicate QualifiedAt(b: Book, v: Viewpoint, x: Place)
    requires x in b.replacement
  {
    InWindow(b.replacement[x].receipt, v) && b.replacement[x].report.confidence >= v.policy.minReplacementConfidence
  }

  /**
   * The evidence chosen for an alternate, in a sound book: the first admissible observation by name,
   * or one that qualifies and is stronger than it; and no other that qualifies is stronger still.
   */
  lemma ChosenIsStrongest(b: Book, v: Viewpoint, link: LinkKey, generation: nat, now: Receipt, limits: EvidenceLimits)
    requires Sound(b, now, limits) && now.tick == v.tick && now.coordinator == v.incarnation
    ensures var chosen := ChosenFor(b, v, link, generation);
            && (chosen.None? <==> forall x :: x in b.replacement && x.link == link ==> !AdmissibleAt(b, v, generation, x))
            && (chosen.Some? ==>
                  var x := chosen.value;
                  && x in b.replacement && x.link == link && AdmissibleAt(b, v, generation, x)
                  && (forall y :: y in b.replacement && y.link == link && AdmissibleAt(b, v, generation, y) && QualifiedAt(b, v, y) && y != x
                                  ==> !StrongerAt(b, y, x))
                  && exists f :: FirstAdmissible(b, v, link, generation, f) && (x == f || (QualifiedAt(b, v, x) && StrongerAt(b, x, f))))
  {
    hide Choose, Outranks, StrongerAt, AdmissibleAt, Sound;
    SoundMeans(b, v, now, limits);
    ReportersPlaces(b.replacement, link);
    var all := Reporters(b.replacement, link);
    ChooseAdmissible(b, v, link, generation, all, None);
    var chosen := ChosenFor(b, v, link, generation);
    assert forall x :: x in b.replacement && x.link == link ==> x == Place(link, x.publisher) && x.publisher in all;
    if chosen.Some? {
      var admissible := set p | p in all && Admissible(b, v, generation, Place(link, p));
      assert chosen.value.publisher in admissible;
      var first := Least(admissible);
      assert FirstAdmissible(b, v, link, generation, Place(link, first));
      FirstThenStrongest(b, v, link, generation, all, first);
    }
  }

  ghost predicate FirstAdmissible(b: Book, v: Viewpoint, link: LinkKey, generation: nat, f: Place) {
    && f in b.replacement && f.link == link && AdmissibleAt(b, v, generation, f)
    && forall y :: y in b.replacement && y.link == link && AdmissibleAt(b, v, generation, y) ==> y == f || NameLess(f.publisher, y.publisher)
  }

  lemma SoundMeans(b: Book, v: Viewpoint, now: Receipt, limits: EvidenceLimits)
    requires Sound(b, now, limits) && now.tick == v.tick && now.coordinator == v.incarnation
    ensures Signed(b)
    ensures forall x :: x in b.replacement ==> Qualified(b, v, x) == QualifiedAt(b, v, x)
    ensures forall x, g :: x in b.replacement ==> Admissible(b, v, g, x) == AdmissibleAt(b, v, g, x)
    ensures forall x, y :: x in b.replacement && y in b.replacement ==> Outranks(b, v, x, y) == StrongerAt(b, x, y)
  {
    hide NameLess;
    forall x | x in b.replacement
      ensures b.replacement[x].report.stamp.publisher == x.publisher && Classify(b.replacement[x].receipt, v).1 == v.tick - b.replacement[x].receipt.tick
    {
      assert Fresh(b, x, b.replacement[x].report.stamp, b.replacement[x].receipt, now);
    }
  }

  /** Whether qualified evidence of the link, in its own terms, contradicts what `x` says. */
  ghost predicate ContradictedAt(b: Book, v: Viewpoint, link: LinkKey, generation: nat, x: Place)
    requires x in b.replacement
  {
    exists y :: y in b.replacement && y.link == link && y != x && AdmissibleAt(b, v, generation, y) && QualifiedAt(b, v, y)
                && b.replacement[y].report.state != b.replacement[x].report.state
  }

  /** What a requested alternate is resolved to: its definition in force, and the evidence chosen for it with its age and whether it is contradicted. */
  lemma ResolvedShows(b: Book, v: Viewpoint, links: seq<LinkDefinition>, c: Candidate, now: Receipt, limits: EvidenceLimits)
    requires Sound(b, now, limits) && now.tick == v.tick && now.coordinator == v.incarnation
    ensures var r := Resolve(b, v, links, c);
            var found := Find(links, c.link);
            && r.candidate == c.link && (r.generationAsserted <==> c.expectedGeneration != 0)
            && (found.None? ==> r.generation == c.expectedGeneration && !r.generationMatched && !r.evidencePresent)
            && (found.Some? ==>
                  var generation := found.value.generation;
                  var chosen := ChosenFor(b, v, c.link, generation);
                  && r.generation == generation && (r.generationMatched <==> c.expectedGeneration == 0 || c.expectedGeneration == generation)
                  && (r.evidencePresent <==> chosen.Some?)
                  && (chosen.Some? ==>
                        var held := b.replacement[chosen.value];
                        && r.report == held.report && r.evidenceDigest == held.digest && r.age == v.tick - held.receipt.tick
                        && r.freshness == (if v.tick - held.receipt.tick <= v.policy.evidenceMaxAge then Freshness.Current else Expired)
                        && (r.conflicted <==> ContradictedAt(b, v, c.link, generation, chosen.value))))
  {
    hide ChosenFor, AdmissibleAt, QualifiedAt, Admissible, Qualified, Sound, Outranks, StrongerAt;
    SoundMeans(b, v, now, limits);
    var found := Find(links, c.link);
    if found.Some? {
      var chosen := ChosenFor(b, v, c.link, found.value.generation);
      if chosen.Some? { ReceiptIsOurs(b, now, limits, chosen.value); }
    }
  }

  lemma ReceiptIsOurs(b: Book, now: Receipt, limits: EvidenceLimits, x: Place)
    requires Sound(b, now, limits) && x in b.replacement
    ensures b.replacement[x].receipt.tick <= now.tick && b.replacement[x].receipt.coordinator == now.coordinator
  {}
}
