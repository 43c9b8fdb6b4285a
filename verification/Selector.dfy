/** Choosing a replacement: one assessment per candidate, a strict total objective, and an independent checker. */
module Selector {
  import opened Basics
  import opened Reasons
  import opened Records
  import opened Sorting

  datatype Resolved = Resolved(
    candidate: LinkKey,
    generation: nat,
    evidencePresent: bool,
    report: ReplacementReport,
    evidenceDigest: Digest,
    freshness: Freshness,
    age: nat,
    generationAsserted: bool,
    generationMatched: bool,
    conflicted: bool)

  datatype Input = Input(subject: LinkKey, policy: Policy, minCapacity: nat, candidates: seq<Resolved>)

  datatype Status = Selected | ProvenInfeasible | Indeterminate | EmptyCandidateSet

  datatype Selection = Selection(
    status: Status,
    summary: nat,
    selectedIndex: Option<nat>,
    assessments: seq<Assessment>,
    eligible: nat,
    disproven: nat,
    indeterminate: nat)

  predicate Conclusive(code: nat) {
    code in {REPLACEMENT_IS_SUBJECT, REPLACEMENT_STATE_UNUSABLE, REPLACEMENT_NOT_ELIGIBLE,
             REPLACEMENT_INSUFFICIENT_CAPACITY, REPLACEMENT_NOT_ADJACENT}
  }

  // ---- what makes a candidate eligible, disproven or undecided ----

  /** The candidate's evidence may be relied on, whatever it says. */
  predicate Usable(input: Input, c: Resolved) {
    && !c.conflicted && c.evidencePresent
    && (c.generationAsserted ==> c.generationMatched)
    && c.freshness.Current?
    && c.report.confidence >= input.policy.minReplacementConfidence
    && !c.report.state.Unknown?
  }

  /** What usable evidence says against a candidate. */
  predicate Unfit(input: Input, c: Resolved) {
    || c.report.state.Down? || c.report.state.Unusable?
    || (c.report.state.Degraded? && !input.policy.allowDegraded)
    || c.report.capacity < input.minCapacity
    || (input.policy.requireAdjacency && !c.report.adjacencyAuthorized)
  }

  function Judgement(input: Input, c: Resolved): (Verdict, nat) {
    if c.candidate == input.subject then (Verdict.Disproven, REPLACEMENT_IS_SUBJECT)
    else if c.conflicted then (Verdict.Indeterminate, EVIDENCE_CONFLICTED)
    else if !c.evidencePresent then (Verdict.Indeterminate, EVIDENCE_MISSING)
    else if c.generationAsserted && !c.generationMatched then (Verdict.Indeterminate, REPLACEMENT_GENERATION_MISMATCH)
    else if c.freshness.PriorIncarnation? then (Verdict.Indeterminate, EVIDENCE_PRIOR_INCARNATION)
    else if c.freshness.Expired? then (Verdict.Indeterminate, EVIDENCE_STALE)
    else if c.freshness.Future? then (Verdict.Indeterminate, EVIDENCE_STALE)
    else if c.report.confidence < input.policy.minReplacementConfidence then (Verdict.Indeterminate, EVIDENCE_LOW_CONFIDENCE)
    else if c.report.state.Unknown? then (Verdict.Indeterminate, EVIDENCE_UNKNOWN)
    else if c.report.state.Down? || c.report.state.Unusable? then (Verdict.Disproven, REPLACEMENT_STATE_UNUSABLE)
    else if c.report.state.Degraded? && !input.policy.allowDegraded then (Verdict.Disproven, REPLACEMENT_NOT_ELIGIBLE)
    else if c.report.capacity < input.minCapacity then (Verdict.Disproven, REPLACEMENT_INSUFFICIENT_CAPACITY)
    else if input.policy.requireAdjacency && !c.report.adjacencyAuthorized then (Verdict.Disproven, REPLACEMENT_NOT_ADJACENT)
    else (Verdict.Eligible, SELECTED_HIGHEST_OBJECTIVE)
  }

  function Assess(input: Input, c: Resolved): (a: Assessment)
    ensures a.verdict.Eligible? <==> c.candidate != input.subject && Usable(input, c) && !Unfit(input, c)
    ensures a.verdict.Disproven? <==> c.candidate == input.subject || (Usable(input, c) && Unfit(input, c))
    ensures a.verdict.Disproven? ==> Conclusive(a.reason)
    ensures a.candidate == c.candidate && a.generation == c.generation
  {
    var (verdict, reason) := Judgement(input, c);
    Assessment(c.candidate, c.generation, verdict, reason, c.report.state, c.report.confidence, c.freshness, c.age,
               c.report.capacity, c.report.cost, c.report.adjacencyAuthorized, c.evidenceDigest, [])
  }

  function AssessAll(input: Input, cs: seq<Resolved>): (r: seq<Assessment>)
    ensures |r| == |cs|
    ensures forall i :: 0 <= i < |cs| ==> r[i] == Assess(input, cs[i])
  {
    seq(|cs|, i requires 0 <= i < |cs| => Assess(input, cs[i]))
  }

  predicate AssessmentLess(a: Assessment, b: Assessment) {
    if LinkLess(a.candidate, b.candidate) then true
    else if LinkLess(b.candidate, a.candidate) then false
    else a.generation > b.generation
  }

  function Canonical(input: Input): (r: seq<Assessment>)
    ensures |r| == |input.candidates|
  {
    Sort(AssessAll(input, input.candidates), AssessmentLess)
  }

  // ---- the objective ----

  predicate Better(a: Assessment, b: Assessment) {
    if a.adjacencyAuthorized != b.adjacencyAuthorized then a.adjacencyAuthorized
    else if a.confidence != b.confidence then a.confidence > b.confidence
    else if a.age != b.age then a.age < b.age
    else if a.capacity != b.capacity then a.capacity > b.capacity
    else if a.cost != b.cost then a.cost < b.cost
    else if a.generation != b.generation then a.generation > b.generation
    else NameLess(a.candidate.link, b.candidate.link)
  }

  /** The objective is a strict order that tells apart any two links of one fabric. */
  lemma BetterIsStrictTotal(a: Assessment, b: Assessment, c: Assessment)
    ensures !Better(a, a)
    ensures Better(a, b) ==> !Better(b, a)
    ensures Better(a, b) && Better(b, c) ==> Better(a, c)
    ensures !Better(a, b) && !Better(b, c) ==> !Better(a, c)
    ensures a.candidate.fabric == b.candidate.fabric && a.candidate != b.candidate ==> Better(a, b) || Better(b, a)
  {
    var x, y, z := a.candidate.link, b.candidate.link, c.candidate.link;
    NameLessIrreflexive(x);
    NameLessTotal(x, y);
    NameLessTotal(y, z);
    NameLessTotal(x, z);
    if NameLess(x, y) { NameLessAsymmetric(x, y); }
    if NameLess(y, x) { NameLessAsymmetric(y, x); }
    if NameLess(x, y) && NameLess(y, z) { NameLessTransitive(x, y, z); }
    if NameLess(x, z) && NameLess(z, y) { NameLessTransitive(x, z, y); }
    if NameLess(y, x) && NameLess(x, z) { NameLessTransitive(y, x, z); }
  }

  /** The same in every measure and in the link's name; the fabrics may differ. */
  predicate Level(a: Assessment, b: Assessment) {
    && a.adjacencyAuthorized == b.adjacencyAuthorized && a.confidence == b.confidence && a.age == b.age && a.capacity == b.capacity
    && a.cost == b.cost && a.generation == b.generation && a.candidate.link == b.candidate.link
  }

  /** The objective leaves two assessments undecided exactly when they are level. */
  lemma TiesExactlyWhen(a: Assessment, b: Assessment)
    ensures !Better(a, b) && !Better(b, a) <==> Level(a, b)
  {
    NameLessIrreflexive(a.candidate.link);
    NameLessTotal(a.candidate.link, b.candidate.link);
  }

  function Count(s: seq<Assessment>, v: Verdict): (n: nat)
    ensures n <= |s|
    ensures n == 0 <==> forall a :: a in s ==> a.verdict != v
  {
    if s == [] then 0
    else
      assert s == s[..|s| - 1] + [s[|s| - 1]];
      Count(s[..|s| - 1], v) + (if s[|s| - 1].verdict == v then 1 else 0)
  }

  /** No eligible assessment of `s` beats the one at `i`. */
  predicate Maximal(s: seq<Assessment>, i: nat) {
    && i < |s| && s[i].verdict.Eligible?
    && forall j :: 0 <= j < |s| && s[j].verdict.Eligible? ==> !Better(s[j], s[i])
  }

  /** The scan's choice: the first eligible assessment that no other beats. */
  function BestOf(s: seq<Assessment>): (r: Option<nat>)
    ensures r.Some? ==> r.value < |s| && s[r.value].verdict.Eligible?
    ensures r.None? <==> forall a :: a in s ==> !a.verdict.Eligible?
  {
    if s == [] then None
    else
      var i := |s| - 1;
      assert s == s[..i] + [s[i]];
      var best := BestOf(s[..i]);
      if !s[i].verdict.Eligible? then best
      else if best.None? || Better(s[i], s[best.value]) then Some(i)
      else best
  }

  lemma {:induction false} BestIsMaximal(s: seq<Assessment>)
    requires BestOf(s).Some?
    ensures Maximal(s, BestOf(s).value)
  {
    if s != [] {
      var i := |s| - 1;
      var front := s[..i];
      var best := BestOf(s).value;
      if BestOf(front).Some? {
        BestIsMaximal(front);
        var old_ := BestOf(front).value;
        forall j | 0 <= j < |s| && s[j].verdict.Eligible? ensures !Better(s[j], s[best]) {
          if j < i { assert !Better(front[j], front[old_]); }
          BetterIsStrictTotal(s[j], s[old_], s[i]);
          BetterIsStrictTotal(s[j], s[i], s[old_]);
          BetterIsStrictTotal(s[i], s[old_], s[j]);
        }
      } else {
        forall j | 0 <= j < i ensures !s[j].verdict.Eligible? {
          assert front[j] in front;
        }
        BetterIsStrictTotal(s[best], s[best], s[best]);
      }
    }
  }

  function Conclude(assessments: seq<Assessment>): Selection
    requires assessments != []
  {
    var best := BestOf(assessments);
    var eligible := Count(assessments, Verdict.Eligible);
    var disproven := Count(assessments, Verdict.Disproven);
    var undecided := Count(assessments, Verdict.Indeterminate);
    if best.Some? then Selection(Selected, SELECTED_HIGHEST_OBJECTIVE, best, assessments, eligible, disproven, undecided)
    else if undecided == 0
    then Selection(ProvenInfeasible, CERTIFIED_INFEASIBLE, None, assessments, eligible, disproven, undecided)
    else Selection(Status.Indeterminate, SELECTION_INDETERMINATE, None, assessments, eligible, disproven, undecided)
  }

  function Select(input: Input): (r: Selection)
    ensures r.assessments == Canonical(input)
  {
    if input.candidates == [] then Selection(EmptyCandidateSet, CANDIDATE_SET_EMPTY, None, [], 0, 0, 0)
    else Conclude(Canonical(input))
  }

  lemma PrefixStep(s: seq<Assessment>, i: nat)
    requires i < |s|
    ensures forall v :: Count(s[..i + 1], v) == Count(s[..i], v) + (if s[i].verdict == v then 1 else 0)
    ensures BestOf(s[..i + 1])
         == if s[i].verdict.Eligible? && (BestOf(s[..i]).None? || Better(s[i], s[BestOf(s[..i]).value])) then Some(i) else BestOf(s[..i])
  {
    hide Better;
    assert s[..i + 1][..i] == s[..i];
  }

  method AssessEach(input: Input) returns (assessments: seq<Assessment>)
    ensures assessments == AssessAll(input, input.candidates)
  {
    hide Assess;
    assessments := [];
    for i := 0 to |input.candidates|
      invariant assessments == AssessAll(input, input.candidates)[..i]
    {
      assessments := assessments + [Assess(input, input.candidates[i])];
    }
  }

  method Tally(assessments: seq<Assessment>) returns (eligible: nat, disproven: nat, undecided: nat)
    ensures eligible == Count(assessments, Verdict.Eligible)
    ensures disproven == Count(assessments, Verdict.Disproven)
    ensures undecided == Count(assessments, Verdict.Indeterminate)
  {
    hide Count, BestOf, Better;
    eligible, disproven, undecided := 0, 0, 0;
    assert assessments[..0] == [];
    for i := 0 to |assessments|
      invariant eligible == Count(assessments[..i], Verdict.Eligible)
      invariant disproven == Count(assessments[..i], Verdict.Disproven)
      invariant undecided == Count(assessments[..i], Verdict.Indeterminate)
    {
      PrefixStep(assessments, i);
      match assessments[i].verdict
      case Eligible => eligible := eligible + 1;
      case Disproven => disproven := disproven + 1;
      case Indeterminate => undecided := undecided + 1;
    }
    assert assessments[..|assessments|] == assessments;
  }

  method Scan(assessments: seq<Assessment>) returns (best: nat)
    ensures BestOf(assessments) == if best == |assessments| then None else Some(best)
  {
    hide Count, BestOf, Better;
    best := |assessments|;
    assert assessments[..0] == [];
    for i := 0 to |assessments|
      invariant BestOf(assessments[..i]) == if best == |assessments| then None else Some(best)
      invariant best < i || best == |assessments|
    {
      PrefixStep(assessments, i);
      if assessments[i].verdict.Eligible? && (best == |assessments| || Better(assessments[i], assessments[best])) {
        best := i;
      }
    }
    assert assessments[..|assessments|] == assessments;
  }

  method SelectReplacement(input: Input) returns (outcome: Selection)
    ensures outcome == Select(input)
    ensures outcome.status.Selected? <==> exists c :: c in input.candidates && MayTakeOver(input, c)
    ensures outcome.status.Selected? ==> exists chosen :: BestChoice(input, outcome, chosen)
  {
    hide AssessAll, Sort, BestChoice, MayTakeOver;
    SelectedExactlyWhen(input);
    if Select(input).status.Selected? { ghost var _ := SelectedIsBest(input); }
    if input.candidates == [] {
      return Selection(EmptyCandidateSet, CANDIDATE_SET_EMPTY, None, [], 0, 0, 0);
    }
    var assessments := AssessEach(input);
    assessments := Sort(assessments, AssessmentLess);
    var eligible, disproven, undecided := Tally(assessments);
    if eligible == 0 {
      if undecided == 0 {
        return Selection(ProvenInfeasible, CERTIFIED_INFEASIBLE, None, assessments, eligible, disproven, undecided);
      }
      return Selection(Status.Indeterminate, SELECTION_INDETERMINATE, None, assessments, eligible, disproven, undecided);
    }
    var best := Scan(assessments);
    return Selection(Selected, SELECTED_HIGHEST_OBJECTIVE, Some(best), assessments, eligible, disproven, undecided);
  }

  // ---- the checker ----

  predicate DuplicateFree(cs: seq<Resolved>) {
    forall i, j :: 0 <= i < j < |cs| ==> cs[i].candidate != cs[j].candidate
  }

  predicate NamesInput(input: Input, a: Assessment) {
    exists c :: c in input.candidates && c.candidate == a.candidate && c.generation == a.generation
  }

  /** What the checker accepts, condition by condition. */
  predicate Acceptable(input: Input, o: Selection) {
    && |o.assessments| == |input.candidates|
    && DuplicateFree(input.candidates)
    && (forall a :: a in o.assessments ==> NamesInput(input, a) && (a.verdict.Disproven? ==> Conclusive(a.reason)))
    && match o.status
       case EmptyCandidateSet => input.candidates == []
       case ProvenInfeasible => o.eligible == 0 && o.indeterminate == 0
       case Indeterminate => o.eligible == 0
       case Selected =>
         && o.selectedIndex.Some?
         && Maximal(o.assessments, o.selectedIndex.value)
         && o.assessments[o.selectedIndex.value].candidate != input.subject
  }

  lemma AcceptableIndex(input: Input, o: Selection)
    requires Acceptable(input, o) && o.status.Selected?
    ensures o.selectedIndex.Some? && o.selectedIndex.value < |o.assessments|
  {}

  method FindDuplicate(cs: seq<Resolved>) returns (found: bool)
    ensures found == !DuplicateFree(cs)
  {
    for i := 0 to |cs|
      invariant forall p, q :: 0 <= p < i && p < q < |cs| ==> cs[p].candidate != cs[q].candidate
    {
      for j := i + 1 to |cs|
        invariant forall q :: i < q < j ==> cs[i].candidate != cs[q].candidate
      {
        if cs[i].candidate == cs[j].candidate {
          return true;
        }
      }
    }
    return false;
  }

  method FindNamed(input: Input, a: Assessment) returns (found: bool)
    ensures found == NamesInput(input, a)
  {
    for j := 0 to |input.candidates|
      invariant forall k :: 0 <= k < j ==> input.candidates[k].candidate != a.candidate || input.candidates[k].generation != a.generation
    {
      if input.candidates[j].candidate == a.candidate && input.candidates[j].generation == a.generation {
        return true;
      }
    }
    return false;
  }

  /** The re-derivation of the maximum, which shares nothing with the selector's own scan. */
  method FindBetter(s: seq<Assessment>, chosen: Assessment) returns (found: bool)
    ensures found == exists j :: 0 <= j < |s| && s[j].verdict.Eligible? && Better(s[j], chosen)
  {
    for i := 0 to |s|
      invariant forall k :: 0 <= k < i && s[k].verdict.Eligible? ==> !Better(s[k], chosen)
    {
      if s[i].verdict.Eligible? && Better(s[i], chosen) {
        return true;
      }
    }
    return false;
  }

  method ValidateSelection(input: Input, o: Selection) returns (ok: bool)
    ensures ok == Acceptable(input, o)
  {
    hide Better, DuplicateFree, NamesInput;
    if |o.assessments| != |input.candidates| {
      return false;
    }
    var duplicate := FindDuplicate(input.candidates);
    if duplicate {
      return false;
    }
    for i := 0 to |o.assessments|
      invariant forall k :: 0 <= k < i ==> NamesInput(input, o.assessments[k])
      invariant forall k :: 0 <= k < i ==> o.assessments[k].verdict.Disproven? ==> Conclusive(o.assessments[k].reason)
    {
      var found := FindNamed(input, o.assessments[i]);
      if !found || (o.assessments[i].verdict.Disproven? && !Conclusive(o.assessments[i].reason)) {
        return false;
      }
    }
    match o.status {
      case EmptyCandidateSet => return input.candidates == [];
      case ProvenInfeasible => return o.eligible == 0 && o.indeterminate == 0;
      case Indeterminate => return o.eligible == 0;
      case Selected =>
    }
    if o.selectedIndex.None? || o.selectedIndex.value >= |o.assessments| {
      return false;
    }
    var chosen := o.assessments[o.selectedIndex.value];
    if !chosen.verdict.Eligible? || chosen.candidate == input.subject {
      return false;
    }
    var beaten := FindBetter(o.assessments, chosen);
    return !beaten;
  }

  // ---- what selection promises ----

  lemma AssessmentOrder()
    ensures StrictOrder(AssessmentLess)
  {
    forall a: Assessment ensures !AssessmentLess(a, a) {
      LinkLessStrictTotal(a.candidate, a.candidate);
    }
    forall a: Assessment, b: Assessment, c: Assessment
      ensures AssessmentLess(a, b) && AssessmentLess(b, c) ==> AssessmentLess(a, c)
      ensures AssessmentLess(a, c) ==> AssessmentLess(a, b) || AssessmentLess(b, c)
    {
      LinkOrderCases(a.candidate, b.candidate, c.candidate);
    }
  }

  /** The canonical assessments are exactly the candidates' own, one for each. */
  lemma CanonicalHolds(input: Input)
    ensures multiset(Canonical(input)) == multiset(AssessAll(input, input.candidates))
    ensures forall a :: a in Canonical(input) ==> exists c :: c in input.candidates && a == Assess(input, c)
    ensures forall c :: c in input.candidates ==> Assess(input, c) in Canonical(input)
  {
    var all := AssessAll(input, input.candidates);
    AssessmentOrder();
    SortIsSorted(all, AssessmentLess);
    forall a | a in Canonical(input) ensures exists c :: c in input.candidates && a == Assess(input, c) {
      assert a in multiset(all);
      var i :| 0 <= i < |all| && all[i] == a;
      assert input.candidates[i] in input.candidates;
    }
    forall c | c in input.candidates ensures Assess(input, c) in Canonical(input) {
      var i :| 0 <= i < |input.candidates| && input.candidates[i] == c;
      assert all[i] in multiset(Canonical(input));
    }
  }

  lemma CanonicalSeparated(input: Input)
    requires DuplicateFree(input.candidates)
    ensures Separated(AssessAll(input, input.candidates), AssessmentLess)
  {
    var cs := input.candidates;
    var all := AssessAll(input, cs);
    forall i, j | 0 <= i < j < |all| ensures AssessmentLess(all[i], all[j]) || AssessmentLess(all[j], all[i]) {
      LinkLessStrictTotal(cs[i].candidate, cs[j].candidate);
    }
  }

  lemma MultisetSplit<T>(a: seq<T>, x: T, b: seq<T>)
    ensures multiset(a + [x] + b) == multiset(a + b) + multiset{x}
  {}

  /** Taking one element out of two arrangements of the same elements. */
  lemma TakeOut<T>(s: seq<T>, t: seq<T>) returns (k: nat)
    requires s != [] && multiset(s) == multiset(t)
    ensures k < |t| && t[k] == s[|s| - 1]
    ensures multiset(s[..|s| - 1]) == multiset(t[..k] + t[k + 1..])
  {
    var x := s[|s| - 1];
    k := PlaceOf(t, x);
    MultisetSplit(t[..k], x, t[k + 1..]);
    MultisetSplit(s[..|s| - 1], x, []);
    Rejoin(t, k);
    assert s == s[..|s| - 1] + [x] + [];
    assert s[..|s| - 1] + [] == s[..|s| - 1];
    Cancel(multiset(s[..|s| - 1]), multiset(t[..k] + t[k + 1..]), x);
  }

  lemma Cancel<T>(a: multiset<T>, b: multiset<T>, x: T)
    requires a + multiset{x} == b + multiset{x}
    ensures a == b
  {
    assert a == (a + multiset{x}) - multiset{x};
  }

  lemma PlaceOf<T>(t: seq<T>, x: T) returns (k: nat)
    requires x in multiset(t)
    ensures k < |t| && t[k] == x
  {
    k :| 0 <= k < |t| && t[k] == x;
  }

  lemma Rejoin<T>(s: seq<T>, k: nat)
    requires k < |s|
    ensures s == s[..k] + [s[k]] + s[k + 1..]
  {}

  lemma {:induction false} AssessAllPermutes(input: Input, s: seq<Resolved>, t: seq<Resolved>)
    requires multiset(s) == multiset(t)
    ensures multiset(AssessAll(input, s)) == multiset(AssessAll(input, t))
    decreases |s|
  {
    hide AssessAll;
    assert |multiset(s)| == |multiset(t)|;
    if s != [] {
      var n := |s| - 1;
      var k := TakeOut(s, t);
      AssessAllPermutes(input, s[..n], t[..k] + t[k + 1..]);
      Rejoin(s, n);
      Rejoin(t, k);
      AssessAllSplits(input, t[..k], s[n], t[k + 1..]);
      AssessAllSplits(input, s[..n], s[n], s[n + 1..]);
      assert s[..n] + s[n + 1..] == s[..n];
    }
  }

  lemma AssessAllSplits(input: Input, a: seq<Resolved>, x: Resolved, b: seq<Resolved>)
    ensures multiset(AssessAll(input, a + [x] + b)) == multiset(AssessAll(input, a + b)) + multiset{Assess(input, x)}
  {
    assert AssessAll(input, a + [x] + b) == AssessAll(input, a) + [Assess(input, x)] + AssessAll(input, b);
    assert AssessAll(input, a + b) == AssessAll(input, a) + AssessAll(input, b);
  }

  /** For duplicate-free candidates the whole outcome is the same in whatever order they come. */
  lemma OrderIsInvisible(input: Input, shuffled: seq<Resolved>)
    requires DuplicateFree(input.candidates) && multiset(shuffled) == multiset(input.candidates)
    ensures Select(input.(candidates := shuffled)) == Select(input)
  {
    var other := input.(candidates := shuffled);
    AssessAllPermutes(input, input.candidates, shuffled);
    assert AssessAll(other, shuffled) == AssessAll(input, shuffled) by {
      forall i | 0 <= i < |shuffled| ensures Assess(other, shuffled[i]) == Assess(input, shuffled[i]) {}
    }
    AssessmentOrder();
    CanonicalSeparated(input);
    SortForgetsOrder(AssessAll(input, input.candidates), AssessAll(other, shuffled), AssessmentLess);
    assert |multiset(shuffled)| == |multiset(input.candidates)|;
  }

  /** The reason that an assessment gives is true of the candidate. */
  lemma ReasonIsTrue(input: Input, c: Resolved)
    ensures var a := Assess(input, c);
            var r := c.report;
            && a.reason in {SELECTED_HIGHEST_OBJECTIVE, REPLACEMENT_IS_SUBJECT, EVIDENCE_CONFLICTED, EVIDENCE_MISSING, REPLACEMENT_GENERATION_MISMATCH,
                            EVIDENCE_PRIOR_INCARNATION, EVIDENCE_STALE, EVIDENCE_LOW_CONFIDENCE, EVIDENCE_UNKNOWN, REPLACEMENT_STATE_UNUSABLE,
                            REPLACEMENT_NOT_ELIGIBLE, REPLACEMENT_INSUFFICIENT_CAPACITY, REPLACEMENT_NOT_ADJACENT}
            && (a.reason == SELECTED_HIGHEST_OBJECTIVE <==> MayTakeOver(input, c))
            && (a.reason == REPLACEMENT_IS_SUBJECT <==> c.candidate == input.subject)
            && (a.reason == EVIDENCE_CONFLICTED ==> c.conflicted)
            && (a.reason == EVIDENCE_MISSING ==> !c.evidencePresent)
            && (a.reason == REPLACEMENT_GENERATION_MISMATCH ==> c.generationAsserted && !c.generationMatched)
            && (a.reason == EVIDENCE_PRIOR_INCARNATION ==> c.freshness == PriorIncarnation)
            && (a.reason == EVIDENCE_STALE ==> c.freshness == Expired || c.freshness == Freshness.Future)
            && (a.reason == EVIDENCE_LOW_CONFIDENCE ==> r.confidence < input.policy.minReplacementConfidence)
            && (a.reason == EVIDENCE_UNKNOWN ==> r.state == ObservationState.Unknown)
            && (a.reason == REPLACEMENT_STATE_UNUSABLE ==> r.state == Down || r.state == Unusable)
            && (a.reason == REPLACEMENT_NOT_ELIGIBLE ==> r.state == Degraded && !input.policy.allowDegraded)
            && (a.reason == REPLACEMENT_INSUFFICIENT_CAPACITY ==> r.capacity < input.minCapacity)
            && (a.reason == REPLACEMENT_NOT_ADJACENT ==> input.policy.requireAdjacency && !r.adjacencyAuthorized)
  {}

  /** Every verdict in the outcome is that of a supplied candidate, and the status says what they amount to. */
  lemma StatusMeans(input: Input)
    ensures Select(input).status.EmptyCandidateSet? <==> input.candidates == []
    ensures Select(input).status.Selected?
            <==> exists c :: c in input.candidates && Assess(input, c).verdict.Eligible?
    ensures Select(input).status.ProvenInfeasible?
            <==> input.candidates != [] && forall c :: c in input.candidates ==> Assess(input, c).verdict.Disproven?
  {
    CanonicalHolds(input);
    var all := Canonical(input);
    if input.candidates != [] {
      assert BestOf(all).None? <==> forall a :: a in all ==> !a.verdict.Eligible?;
      assert Count(all, Verdict.Indeterminate) == 0 <==> forall a :: a in all ==> a.verdict != Verdict.Indeterminate;
    }
  }

  function Having(s: seq<Assessment>, v: Verdict): set<nat> {
    set i: nat | i < |s| && s[i].verdict == v
  }

  lemma {:induction false} CountIsSize(s: seq<Assessment>, v: Verdict)
    ensures Count(s, v) == |Having(s, v)|
    decreases |s|
  {
    if s != [] {
      var n := |s| - 1;
      CountIsSize(s[..n], v);
      assert Having(s, v) == Having(s[..n], v) + if s[n].verdict == v then {n} else {};
    }
  }

  /** The outcome's numbers are those of its assessments, and its summary is the status's. */
  lemma TalliesMean(input: Input)
    ensures var o := Select(input);
            && o.eligible == |Having(o.assessments, Verdict.Eligible)| && o.disproven == |Having(o.assessments, Verdict.Disproven)|
            && o.indeterminate == |Having(o.assessments, Verdict.Indeterminate)|
            && o.summary == match o.status
                            case Selected => SELECTED_HIGHEST_OBJECTIVE
                            case ProvenInfeasible => CERTIFIED_INFEASIBLE
                            case EmptyCandidateSet => CANDIDATE_SET_EMPTY
                            case Indeterminate => SELECTION_INDETERMINATE
  {
    var o := Select(input);
    CountIsSize(o.assessments, Verdict.Eligible);
    CountIsSize(o.assessments, Verdict.Disproven);
    CountIsSize(o.assessments, Verdict.Indeterminate);
  }

  /** The independent checker accepts every outcome the selector produces for a duplicate-free set, and no other set's. */
  lemma SelectorIsAcceptable(input: Input)
    ensures Acceptable(input, Select(input)) <==> DuplicateFree(input.candidates)
  {
    CanonicalHolds(input);
    AssessmentsNameInput(input);
    if Select(input).status.Selected? {
      SelectedIsMaximal(input);
    } else {
      StatusMeans(input);
    }
  }

  lemma AssessmentsNameInput(input: Input)
    ensures forall a :: a in Canonical(input) ==> NamesInput(input, a) && (a.verdict.Disproven? ==> Conclusive(a.reason))
  {
    CanonicalHolds(input);
    forall a | a in Canonical(input) ensures NamesInput(input, a) && (a.verdict.Disproven? ==> Conclusive(a.reason)) {
      var c :| c in input.candidates && a == Assess(input, c);
    }
  }

  lemma SelectedIsMaximal(input: Input)
    requires Select(input).status.Selected?
    ensures Select(input).selectedIndex.Some? && Maximal(Canonical(input), Select(input).selectedIndex.value)
    ensures Canonical(input)[Select(input).selectedIndex.value].candidate != input.subject
  {
    var all := Canonical(input);
    var i := BestOf(all).value;
    BestIsMaximal(all);
    CanonicalHolds(input);
    assert all[i] in all;
  }

  /**
   * The six measures, each in its direction and each deciding only what those before it leave open,
   * and then the link's name: adjacency, more confidence, less age, more capacity, less cost, the
   * newer generation.
   */
  predicate Ahead(x: Resolved, y: Resolved) {
    var (a, b) := (x.report, y.report);
    || (a.adjacencyAuthorized && !b.adjacencyAuthorized)
    || (a.adjacencyAuthorized == b.adjacencyAuthorized
        && (a.confidence > b.confidence
            || (a.confidence == b.confidence
                && (x.age < y.age
                    || (x.age == y.age
                        && (a.capacity > b.capacity
                            || (a.capacity == b.capacity
                                && (a.cost < b.cost
                                    || (a.cost == b.cost
                                        && (x.generation > y.generation
                                            || (x.generation == y.generation && NameLess(x.candidate.link, y.candidate.link))))))))))))
  }

  /** At least as good in every measure, and better in one. */
  predicate Dominates(x: Resolved, y: Resolved) {
    var (a, b) := (x.report, y.report);
    && (b.adjacencyAuthorized ==> a.adjacencyAuthorized) && a.confidence >= b.confidence && x.age <= y.age
    && a.capacity >= b.capacity && a.cost <= b.cost && x.generation >= y.generation
    && ((a.adjacencyAuthorized && !b.adjacencyAuthorized) || a.confidence > b.confidence || x.age < y.age
        || a.capacity > b.capacity || a.cost < b.cost || x.generation > y.generation)
  }

  /** The objective over two candidates' assessments is that order of the candidates. */
  lemma ObjectiveIsLexicographic(input: Input, x: Resolved, y: Resolved)
    ensures Better(Assess(input, x), Assess(input, y)) <==> Ahead(x, y)
    ensures Dominates(x, y) ==> Ahead(x, y) && !Ahead(y, x)
  {
    hide Judgement, NameLess;
  }

  /** The candidate may take over: another link than the subject, with evidence that may be relied on and says nothing against it. */
  predicate MayTakeOver(input: Input, c: Resolved) {
    && c.candidate != input.subject && c.evidencePresent && !c.conflicted && (!c.generationAsserted || c.generationMatched)
    && c.freshness == Freshness.Current && c.report.confidence >= input.policy.minReplacementConfidence
    && (c.report.state == Up || (c.report.state == Degraded && input.policy.allowDegraded))
    && c.report.capacity >= input.minCapacity && (input.policy.requireAdjacency ==> c.report.adjacencyAuthorized)
  }

  /** A candidate is selected exactly when one may take over. */
  lemma SelectedExactlyWhen(input: Input)
    ensures Select(input).status.Selected? <==> exists c :: c in input.candidates && MayTakeOver(input, c)
  {
    hide Assess, MayTakeOver, Select;
    StatusMeans(input);
    forall c ensures Assess(input, c).verdict.Eligible? <==> MayTakeOver(input, c) { EligibleMeans(input, c); }
  }

  lemma EligibleMeans(input: Input, c: Resolved)
    ensures Assess(input, c).verdict.Eligible? <==> MayTakeOver(input, c)
  {}

  /**
   * The selected candidate is one that may take over; no other that may is at least as good in every
   * measure and better in one; none is ahead of it; and of one fabric's candidates it is ahead of
   * every other that may take over.
   */
  predicate BestChoice(input: Input, o: Selection, chosen: Resolved) {
    && chosen in input.candidates && MayTakeOver(input, chosen)
    && o.selectedIndex.Some? && o.selectedIndex.value < |o.assessments|
    && o.assessments[o.selectedIndex.value].candidate == chosen.candidate && o.assessments[o.selectedIndex.value].generation == chosen.generation
    && (forall c :: c in input.candidates && MayTakeOver(input, c) ==> !Ahead(c, chosen) && !Dominates(c, chosen))
    && (forall c :: c in input.candidates && MayTakeOver(input, c) && c.candidate.fabric == chosen.candidate.fabric && c.candidate != chosen.candidate ==>
                      Ahead(chosen, c))
  }

  lemma SelectedIsBest(input: Input) returns (chosen: Resolved)
    requires Select(input).status.Selected?
    ensures BestChoice(input, Select(input), chosen)
    ensures Select(input).assessments[Select(input).selectedIndex.value] == Assess(input, chosen)
  {
    hide Assess, Better, MayTakeOver, Ahead, Dominates;
    CanonicalHolds(input);
    var all := Canonical(input);
    BestIsMaximal(all);
    var i := BestOf(all).value;
    assert all[i] in all;
    chosen :| chosen in input.candidates && all[i] == Assess(input, chosen);
    EligibleMeans(input, chosen);
    forall c | c in input.candidates && MayTakeOver(input, c)
      ensures !Ahead(c, chosen) && !Dominates(c, chosen)
      ensures c.candidate.fabric == chosen.candidate.fabric && c.candidate != chosen.candidate ==> Ahead(chosen, c)
    {
      EligibleMeans(input, c);
      ObjectiveIsLexicographic(input, c, chosen);
      ObjectiveIsLexicographic(input, chosen, c);
      var j :| 0 <= j < |all| && all[j] == Assess(input, c);
      assert !Better(all[j], all[i]);
      BetterIsStrictTotal(Assess(input, chosen), Assess(input, c), Assess(input, c));
    }
  }

  // ---- when the maximum is unique ----

  /** An eligible candidate that no eligible one beats. */
  ghost predicate Unbeaten(input: Input, c: Resolved) {
    && c in input.candidates && Assess(input, c).verdict.Eligible?
    && forall d :: d in input.candidates && Assess(input, d).verdict.Eligible? ==> !Better(Assess(input, d), Assess(input, c))
  }

  ghost predicate OneBest(input: Input) {
    forall c, d :: Unbeaten(input, c) && Unbeaten(input, d) ==> c.candidate == d.candidate
  }

  /** The input is about these links, in this order, whatever the evidence and the policy say. */
  predicate About(input: Input, links: seq<LinkKey>) {
    |input.candidates| == |links| && forall i :: 0 <= i < |links| ==> input.candidates[i].candidate == links[i]
  }

  predicate NamesApart(links: seq<LinkKey>) {
    forall i, j :: 0 <= i < j < |links| ==> links[i].link != links[j].link
  }

  lemma ApartHasOneBest(input: Input, links: seq<LinkKey>)
    requires About(input, links) && NamesApart(links)
    ensures OneBest(input)
  {
    hide Assess, Better;
    forall c, d | Unbeaten(input, c) && Unbeaten(input, d) ensures c.candidate == d.candidate {
      var i :| 0 <= i < |links| && input.candidates[i] == c;
      var j :| 0 <= j < |links| && input.candidates[j] == d;
      TiesExactlyWhen(Assess(input, c), Assess(input, d));
    }
  }

  /** Evidence that speaks for a link, and none. */
  function Shown(link: LinkKey, speaks: bool): Resolved {
    Resolved(link, 1, speaks, ReplacementReport(link, 1, 1, Up, 5, 1, 1, true, 1, Stamp([1], ZERO_INCARNATION, 0, 1, 0)), ZERO_DIGEST,
             Freshness.Current, 0, false, true, false)
  }

  /** Two links of one name: evidence for exactly those two makes both unbeaten. */
  lemma SharedNameTies(links: seq<LinkKey>, i: nat, j: nat) returns (input: Input)
    requires i < j < |links| && links[i].link == links[j].link && links[i] != links[j]
    ensures About(input, links) && !OneBest(input)
  {
    hide Better;
    var policy := Policy(1, 0, 0, 1, 0, false, false, false, false, Unanimous, 1, 1, 1, true, true);
    var elsewhere := LinkKey(links[i].fabric + links[j].fabric + [1], []);
    assert |elsewhere.fabric| > |links[i].fabric| && |elsewhere.fabric| > |links[j].fabric|;
    var cs := seq(|links|, k requires 0 <= k < |links| => Shown(links[k], k == i || k == j));
    input := Input(elsewhere, policy, 0, cs);
    assert cs[i] in cs && cs[j] in cs;
    forall d | d in cs && Assess(input, d).verdict.Eligible?
      ensures !Better(Assess(input, d), Assess(input, cs[i])) && !Better(Assess(input, d), Assess(input, cs[j]))
    {
      var k :| 0 <= k < |links| && cs[k] == d;
      assert k == i || k == j;
      TiesExactlyWhen(Assess(input, d), Assess(input, cs[i]));
      TiesExactlyWhen(Assess(input, d), Assess(input, cs[j]));
    }
    assert Unbeaten(input, cs[i]) && Unbeaten(input, cs[j]);
  }

  /**
   * What a caller can check before the call: of distinct candidates the best is unique, whatever the
   * evidence and the policy, exactly when no two of them share a link name.
   */
  lemma UniqueExactlyWhen(links: seq<LinkKey>)
    requires forall i, j :: 0 <= i < j < |links| ==> links[i] != links[j]
    ensures NamesApart(links) <==> forall input :: About(input, links) ==> OneBest(input)
  {
    hide OneBest, About;
    if NamesApart(links) {
      forall input | About(input, links) ensures OneBest(input) { ApartHasOneBest(input, links); }
    } else {
      var i, j :| 0 <= i < j < |links| && links[i].link == links[j].link;
      var input := SharedNameTies(links, i, j);
    }
  }

  /**
   * Across fabrics the last tie-break compares only link names: two eligible candidates with the
   * same link name and equal measures tie, so the maximum is not unique there.
   */
  lemma TwoFabricsCanTie() returns (input: Input)
    ensures DuplicateFree(input.candidates) && |input.candidates| == 2
    ensures forall c :: c in input.candidates ==> Assess(input, c).verdict.Eligible?
    ensures forall c, d :: c in input.candidates && d in input.candidates ==> !Better(Assess(input, c), Assess(input, d))
  {
    var policy := Policy(1, 0, 0, 1, 0, false, false, false, false, Unanimous, 1, 1, 1, true, true);
    var stamp := Stamp([1], ZERO_INCARNATION, 0, 1, 0);
    var a, b := LinkKey([1], [9]), LinkKey([2], [9]);
    var left := Resolved(a, 1, true, ReplacementReport(a, 1, 1, Up, 5, 1, 1, true, 1, stamp), ZERO_DIGEST, Freshness.Current, 0, false, true, false);
    var right := Resolved(b, 1, true, ReplacementReport(b, 1, 1, Up, 5, 1, 1, true, 1, stamp), ZERO_DIGEST, Freshness.Current, 0, false, true, false);
    input := Input(NO_LINK, policy, 0, [left, right]);
    NameLessIrreflexive([9]);
  }
}
