/** The layouts of the durable records, and that each reads back exactly. */
module RecordCodec {
  import opened Basics
  import opened ByteBits
  import opened Bytes
  import opened Codec
  import opened Reasons
  import opened Records
  import opened Lineage

  const IDENTITY_FORMAT: nat := 1
  const MAX_NAME: nat := 64
  const MAX_REASONS: nat := 24
  const MAX_FENCE_DETAIL: nat := 512

  function H(n: nat): Field { Number(2, n) }
  function W(n: nat): Field { Number(4, n) }
  function L(n: nat): Field { Number(8, n) }
  function T(s: seq<byte>): Field { Text(s, MAX_ENCODED_STRING) }

  const SH := Numeric(2)
  const SW := Numeric(4)
  const SL := Numeric(8)
  const ST := Bounded(MAX_ENCODED_STRING)
  const SD := Sized(32)
  const SI := Sized(16)

  function Num(f: Field): nat { if f.Number? then f.value else 0 }
  function Str(f: Field): seq<byte> { if f.Text? then f.text else if f.Fixed? then f.bytes else [] }
  function On(f: Field): bool { f.Flag? && f.set_ }

  // ---- the values a record may hold ----

  predicate NameChar(c: byte) {
    (97 <= c <= 122) || (65 <= c <= 90) || (48 <= c <= 57) || c == 46 || c == 95 || c == 45 || c == 58
  }

  /** The identity grammar. */
  predicate ValidName(n: Name) {
    0 < |n| <= MAX_NAME && n != [46] && n != [46, 46] && forall c :: c in n ==> NameChar(c)
  }

  /** What a decoded name may be: absent, or valid. */
  predicate NameOk(n: Name) { n == [] || ValidName(n) }

  predicate Long(n: nat) { n < U64_LIMIT }
  predicate Word(n: nat) { n < U32_LIMIT }
  predicate IsDigest(d: seq<byte>) { |d| == 32 }
  predicate IsIncarnation(i: seq<byte>) { |i| == 16 }
  predicate LinkOk(k: LinkKey) { NameOk(k.fabric) && NameOk(k.link) }

  lemma Widths()
    ensures Pow256(2) == 0x1_0000 && Pow256(4) == U32_LIMIT && Pow256(8) == U64_LIMIT
  {
    PowersOf256();
  }

  // ---- enumerations by their stable numbers ----

  function PhaseCode(p: Phase): nat {
    match p
    case Evaluated => 0
    case Authorized => 1
    case Acknowledged => 2
    case Verified => 3
    case Refused => 4
    case Indeterminate => 5
    case Committed => 6
    case RolledBack => 7
    case Interrupted => 8
    case Superseded => 9
    case Aborted => 10
  }

  const PHASES: seq<Phase> := [Evaluated, Authorized, Acknowledged, Phase.Verified, Phase.Refused, Phase.Indeterminate,
                               Phase.Committed, Phase.RolledBack, Phase.Interrupted, Superseded, Aborted]

  function RevalidationCode(r: Revalidation): nat {
    match r
    case NotApplied => 0
    case Applied => 1
    case Unknown => 2
  }

  const REVALIDATIONS: seq<Revalidation> := [NotApplied, Applied, Revalidation.Unknown]

  function FenceCode(k: FenceKind): nat {
    match k
    case AttemptSuperseded => 0
    case PreRestartAuthority => 1
    case SessionRevoked => 2
    case PolicyChanged => 3
    case TopologyChanged => 4
    case EpochAdvanced => 5
    case RollbackRevoked => 6
  }

  const FENCE_KINDS: seq<FenceKind> := [AttemptSuperseded, PreRestartAuthority, SessionRevoked, PolicyChanged, TopologyChanged,
                                        EpochAdvanced, RollbackRevoked]

  function KindCode(k: DecisionKind): nat {
    match k
    case Observe => 0
    case Grant => 1
    case Refuse => 2
    case Rollback => 3
    case Revalidate => 4
    case Indeterminate => 5
    case Acknowledge => 6
    case Verify => 7
    case Fence => 8
  }

  const KINDS: seq<DecisionKind> := [Observe, Grant, Refuse, DecisionKind.Rollback, Revalidate, DecisionKind.Indeterminate, Acknowledge,
                                     DecisionKind.Verify, DecisionKind.Fence]

  function AssertionCode(a: Assertion): nat {
    match a
    case Nothing => 0
    case Observation => 1
    case Eligibility => 2
    case Recommendation => 3
    case Authorization => 4
    case Acknowledgement => 5
    case VerifiedEffect => 6
  }

  const ASSERTIONS: seq<Assertion> := [Nothing, Observation, Eligibility, Recommendation, Authorization, Acknowledgement, VerifiedEffect]

  function OutcomeCode(o: Outcome): nat {
    match o
    case Ok => 0
    case Refused => 1
    case Unknown => 2
    case Stale => 3
    case Conflict => 4
    case Invalid => 5
    case Unsupported => 6
    case NotFound => 7
    case LimitExceeded => 8
    case Corrupt => 9
    case Indeterminate => 10
    case Interrupted => 11
    case Exhausted => 12
    case IoError => 13
    case Closed => 14
    case Unauthenticated => 15
  }

  const OUTCOMES: seq<Outcome> := [Outcome.Ok, Outcome.Refused, Outcome.Unknown, Outcome.Stale, Outcome.Conflict, Outcome.Invalid,
                                   Outcome.Unsupported, Outcome.NotFound, Outcome.LimitExceeded, Outcome.Corrupt, Outcome.Indeterminate,
                                   Outcome.Interrupted, Outcome.Exhausted, Outcome.IoError, Outcome.Closed, Outcome.Unauthenticated]

  function AgreementCode(r: AgreementRule): nat { if r.Unanimous? then 0 else 1 }

  /** Every enumerator is at its own number. */
  lemma CodesReadBack()
    ensures forall p :: PhaseCode(p) < |PHASES| && PHASES[PhaseCode(p)] == p
    ensures forall r :: RevalidationCode(r) < |REVALIDATIONS| && REVALIDATIONS[RevalidationCode(r)] == r
    ensures forall k :: FenceCode(k) < |FENCE_KINDS| && FENCE_KINDS[FenceCode(k)] == k
    ensures forall k :: KindCode(k) < |KINDS| && KINDS[KindCode(k)] == k
    ensures forall a :: AssertionCode(a) < |ASSERTIONS| && ASSERTIONS[AssertionCode(a)] == a
    ensures forall o :: OutcomeCode(o) < |OUTCOMES| && OUTCOMES[OutcomeCode(o)] == o
  {}

  // ---- reasons ----

  predicate ReasonsOk(rs: seq<Reason>, max: nat) {
    |rs| <= max && forall r :: r in rs ==> r.code < REASON_CODE_COUNT && |r.detail| <= MAX_REASON_DETAIL
  }

  function ReasonFields(r: Reason): seq<Field> { [H(r.code), Text(r.detail, MAX_REASON_DETAIL)] }

  const REASON_SHAPE: seq<Shape> := [SH, Bounded(MAX_REASON_DETAIL)]

  function PutReason(r: Reason): seq<byte> { BytesOf(ReasonFields(r)) }

  function GetReason(s: seq<byte>): Option<(Reason, seq<byte>)> {
    match Get(REASON_SHAPE, s)
    case None => None
    case Some((fs, rest)) =>
      if Num(fs[0]) >= REASON_CODE_COUNT then None else Some((Reason(Num(fs[0]), Str(fs[1])), rest))
  }

  const REASON: Coder<Reason> := Coder(PutReason, GetReason)

  lemma ReasonReadsBack(r: Reason)
    requires r.code < REASON_CODE_COUNT && |r.detail| <= MAX_REASON_DETAIL
    ensures Faithful(REASON, r)
  {
    hide Get, BytesOf;
    Widths();
    var fs := ReasonFields(r);
    assert Shapes(fs) == REASON_SHAPE;
    forall rest ensures GetReason(PutReason(r) + rest) == Some((r, rest)) {
      FieldsReadBack(fs, rest);
    }
  }

  lemma ReasonsReadBack(rs: seq<Reason>, max: nat, rest: seq<byte>)
    requires ReasonsOk(rs, max)
    ensures GetList(REASON, |rs|, PutList(REASON, rs) + rest) == Some((rs, rest))
  {
    hide PutList, GetList, Faithful;
    forall r | r in rs ensures Faithful(REASON, r) { ReasonReadsBack(r); }
    ListReadsBack(REASON, rs, rest);
  }

  // ---- authority vectors ----

  predicate AuthorityOk(a: AuthorityVector) {
    && NameOk(a.fabric) && LinkOk(a.subject) && Long(a.subjectGeneration) && LinkOk(a.replacement) && Long(a.replacementGeneration)
    && Long(a.topologyGeneration) && IsDigest(a.topologyDigest) && Long(a.policyGeneration) && IsDigest(a.policyDigest)
    && Long(a.epoch) && IsIncarnation(a.coordinator) && NameOk(a.evidencePublisher) && IsIncarnation(a.publisherIncarnation)
    && Long(a.publisherSeq) && IsIncarnation(a.applierIncarnation) && Long(a.attemptSeq) && IsDigest(a.evidenceDigest)
  }

  function AuthorityIdentity(a: AuthorityVector): seq<Field> {
    [H(IDENTITY_FORMAT), T(a.fabric), T(a.subject.fabric), T(a.subject.link), L(a.subjectGeneration), T(a.replacement.fabric),
     T(a.replacement.link), L(a.replacementGeneration), L(a.topologyGeneration), Fixed(a.topologyDigest)]
  }

  function AuthorityBinding(a: AuthorityVector): seq<Field> {
    [L(a.policyGeneration), Fixed(a.policyDigest), L(a.epoch), Fixed(a.coordinator), T(a.evidencePublisher),
     Fixed(a.publisherIncarnation), L(a.publisherSeq), Fixed(a.applierIncarnation), L(a.attemptSeq), Fixed(a.evidenceDigest)]
  }

  const AUTHORITY_IDENTITY: seq<Shape> := [SH, ST, ST, ST, SL, ST, ST, SL, SL, SD]
  const AUTHORITY_BINDING: seq<Shape> := [SL, SD, SL, SI, ST, SI, SL, SI, SL, SD]

  function AuthorityFrom(f: seq<Field>, g: seq<Field>): Option<AuthorityVector>
    requires |f| == 10 && |g| == 10
  {
    var a := AuthorityVector(
      Str(f[1]), LinkKey(Str(f[2]), Str(f[3])), Num(f[4]), LinkKey(Str(f[5]), Str(f[6])), Num(f[7]), Num(f[8]), Str(f[9]), Num(g[0]),
      Str(g[1]), Num(g[2]), Str(g[3]), Str(g[4]), Str(g[5]), Num(g[6]), Str(g[7]), Num(g[8]), Str(g[9]));
    if Num(f[0]) != IDENTITY_FORMAT || !NameOk(a.fabric) || !LinkOk(a.subject) || !LinkOk(a.replacement) || !NameOk(a.evidencePublisher)
    then None else Some(a)
  }

  function PutAuthority(a: AuthorityVector): seq<byte> { BytesOf(AuthorityIdentity(a)) + BytesOf(AuthorityBinding(a)) }

  function GetAuthority(s: seq<byte>): Option<(AuthorityVector, seq<byte>)> {
    match Get(AUTHORITY_IDENTITY, s)
    case None => None
    case Some((f, s1)) =>
      match Get(AUTHORITY_BINDING, s1)
      case None => None
      case Some((g, s2)) => if AuthorityFrom(f, g).None? then None else Some((AuthorityFrom(f, g).value, s2))
  }

  const AUTHORITY: Coder<AuthorityVector> := Coder(PutAuthority, GetAuthority)

  lemma AuthorityLayout(a: AuthorityVector)
    requires AuthorityOk(a)
    ensures Shapes(AuthorityIdentity(a)) == AUTHORITY_IDENTITY && AllFit(AuthorityIdentity(a))
    ensures Shapes(AuthorityBinding(a)) == AUTHORITY_BINDING && AllFit(AuthorityBinding(a))
  {
    hide NameChar, Pow256;
    Widths();
  }

  lemma AuthorityRebuilds(a: AuthorityVector)
    requires AuthorityOk(a)
    ensures AuthorityFrom(AuthorityIdentity(a), AuthorityBinding(a)) == Some(a)
  {
    hide ValidName;
  }

  lemma AuthorityReadsBack(a: AuthorityVector)
    requires AuthorityOk(a)
    ensures Faithful(AUTHORITY, a)
  {
    hide Get, BytesOf, AuthorityIdentity, AuthorityBinding, AuthorityFrom, AuthorityOk;
    AuthorityLayout(a);
    AuthorityRebuilds(a);
    forall rest ensures GetAuthority(PutAuthority(a) + rest) == Some((a, rest)) {
      var f, g := BytesOf(AuthorityIdentity(a)), BytesOf(AuthorityBinding(a));
      assert f + g + rest == f + (g + rest);
      FieldsReadBack(AuthorityIdentity(a), g + rest);
      FieldsReadBack(AuthorityBinding(a), rest);
    }
  }

  lemma Assoc(a: seq<byte>, b: seq<byte>, c: seq<byte>, d: seq<byte>, e: seq<byte>, f: seq<byte>, rest: seq<byte>)
    ensures a + (b + (c + (d + (e + f)))) + rest == a + (b + (c + (d + (e + (f + rest)))))
  {}

  // ---- attempts ----

  predicate AttemptOk(r: AttemptRecord) {
    && LinkOk(r.subject) && Long(r.generation) && Long(r.seqno) && IsDigest(r.attemptId) && IsDigest(r.key)
    && LinkOk(r.replacement) && Long(r.replacementGeneration) && AuthorityOk(r.authority) && IsDigest(r.evidenceDigest)
    && Long(r.createdTick) && Long(r.createdEpoch) && IsIncarnation(r.coordinator) && Long(r.createSeq) && Long(r.updateSeq)
    && (r.predecessor.Some? ==> IsDigest(r.predecessor.value)) && IsIncarnation(r.applierIncarnation)
    && ReasonsOk(r.reasons, MAX_ATTEMPT_REASONS)
  }

  function AttemptHead(r: AttemptRecord): seq<Field> {
    [H(IDENTITY_FORMAT), T(r.subject.fabric), T(r.subject.link), L(r.generation), L(r.seqno), Fixed(r.attemptId), Fixed(r.key),
     H(PhaseCode(r.phase)), T(r.replacement.fabric), T(r.replacement.link), L(r.replacementGeneration)]
  }

  function AttemptMiddle(r: AttemptRecord): seq<Field> {
    [Fixed(r.evidenceDigest), L(r.createdTick), L(r.createdEpoch), Fixed(r.coordinator), L(r.createSeq), L(r.updateSeq),
     Flag(r.predecessor.Some?)]
  }

  function AttemptPredecessor(r: AttemptRecord): seq<Field> {
    if r.predecessor.Some? then [Fixed(r.predecessor.value)] else []
  }

  function AttemptTail(r: AttemptRecord): seq<Field> {
    [Fixed(r.applierIncarnation), Flag(r.revalidated), H(RevalidationCode(r.revalidation)), W(|r.reasons|)]
  }

  const ATTEMPT_HEAD: seq<Shape> := [SH, ST, ST, SL, SL, SD, SD, SH, ST, ST, SL]
  const ATTEMPT_MIDDLE: seq<Shape> := [SD, SL, SL, SI, SL, SL, Boolean]
  const ATTEMPT_TAIL: seq<Shape> := [SI, Boolean, SH, SW]

  function PutAttempt(r: AttemptRecord): seq<byte> {
    BytesOf(AttemptHead(r)) + (PutAuthority(r.authority) + (BytesOf(AttemptMiddle(r)) + (BytesOf(AttemptPredecessor(r))
      + (BytesOf(AttemptTail(r)) + PutList(REASON, r.reasons)))))
  }

  /** What the decoder builds once every field and reason is read; None when a field is out of its range. */
  function AttemptFrom(h: seq<Field>, a: AuthorityVector, m: seq<Field>, p: seq<Field>, t: seq<Field>, rs: seq<Reason>): Option<AttemptRecord>
    requires |h| == 11 && |m| == 7 && |p| <= 1 && |t| == 4
  {
    if Num(h[0]) != IDENTITY_FORMAT || Num(h[7]) >= |PHASES| || Num(t[3]) > MAX_ATTEMPT_REASONS
       || Num(t[2]) >= |REVALIDATIONS| then None
    else if !NameOk(Str(h[1])) || !NameOk(Str(h[2])) || !NameOk(Str(h[8])) || !NameOk(Str(h[9])) then None
    else
      Some(AttemptRecord(
        LinkKey(Str(h[1]), Str(h[2])), Num(h[3]), Num(h[4]), Str(h[5]), Str(h[6]), PHASES[Num(h[7])], LinkKey(Str(h[8]), Str(h[9])),
        Num(h[10]), a, Str(m[0]), Num(m[1]), Num(m[2]), Str(m[3]), Num(m[4]), Num(m[5]),
        if p == [] then None else Some(Str(p[0])), Str(t[0]), On(t[1]), REVALIDATIONS[Num(t[2])], rs))
  }

  function GetAttempt(s: seq<byte>): Option<(AttemptRecord, seq<byte>)> {
    match Get(ATTEMPT_HEAD, s)
    case None => None
    case Some((h, s1)) =>
      match GetAuthority(s1)
      case None => None
      case Some((a, s2)) =>
        match Get(ATTEMPT_MIDDLE, s2)
        case None => None
        case Some((m, s3)) =>
          match Get(if On(m[6]) then [SD] else [], s3)
          case None => None
          case Some((p, s4)) =>
            match Get(ATTEMPT_TAIL, s4)
            case None => None
            case Some((t, s5)) =>
              if AttemptFrom(h, a, m, p, t, []).None? then None
              else match GetList(REASON, Num(t[3]), s5)
                case None => None
                case Some((rs, s6)) => Some((AttemptFrom(h, a, m, p, t, rs).value, s6))
  }

  lemma AttemptLayout(r: AttemptRecord)
    requires AttemptOk(r)
    ensures Shapes(AttemptHead(r)) == ATTEMPT_HEAD && AllFit(AttemptHead(r))
    ensures Shapes(AttemptMiddle(r)) == ATTEMPT_MIDDLE && AllFit(AttemptMiddle(r)) && On(AttemptMiddle(r)[6]) == r.predecessor.Some?
    ensures Shapes(AttemptPredecessor(r)) == (if r.predecessor.Some? then [SD] else []) && AllFit(AttemptPredecessor(r))
    ensures Shapes(AttemptTail(r)) == ATTEMPT_TAIL && AllFit(AttemptTail(r)) && Num(AttemptTail(r)[3]) == |r.reasons|
  {
    Widths();
  }

  lemma AttemptRebuilds(r: AttemptRecord, rs: seq<Reason>)
    requires AttemptOk(r)
    ensures AttemptFrom(AttemptHead(r), r.authority, AttemptMiddle(r), AttemptPredecessor(r), AttemptTail(r), rs)
         == Some(r.(reasons := rs))
  {
    hide AuthorityOk, ValidName;
    CodesReadBack();
  }

  /** Every attempt the runtime can hold reads back exactly. */
  lemma AttemptReadsBack(r: AttemptRecord)
    requires AttemptOk(r)
    ensures Faithful(ATTEMPT, r)
  {
    hide Get, BytesOf, PutAuthority, GetAuthority, AttemptHead, AttemptMiddle, AttemptTail, AttemptPredecessor, AttemptFrom, PutList, GetList;
    AttemptLayout(r);
    AuthorityReadsBack(r.authority);
    AttemptRebuilds(r, r.reasons);
    AttemptRebuilds(r, []);
    forall rest ensures GetAttempt(PutAttempt(r) + rest) == Some((r, rest)) {
      var h, a, m := BytesOf(AttemptHead(r)), PutAuthority(r.authority), BytesOf(AttemptMiddle(r));
      var p, t, l := BytesOf(AttemptPredecessor(r)), BytesOf(AttemptTail(r)), PutList(REASON, r.reasons);
      Assoc(h, a, m, p, t, l, rest);
      FieldsReadBack(AttemptHead(r), a + (m + (p + (t + (l + rest)))));
      assert AUTHORITY.get(AUTHORITY.put(r.authority) + (m + (p + (t + (l + rest))))) == Some((r.authority, m + (p + (t + (l + rest)))));
      FieldsReadBack(AttemptMiddle(r), p + (t + (l + rest)));
      FieldsReadBack(AttemptPredecessor(r), t + (l + rest));
      FieldsReadBack(AttemptTail(r), l + rest);
      ReasonsReadBack(r.reasons, MAX_ATTEMPT_REASONS, rest);
    }
  }

  const ATTEMPT: Coder<AttemptRecord> := Coder(PutAttempt, GetAttempt)

  // ---- policies and topologies ----

  predicate PolicyOk(p: Policy) {
    && Long(p.generation) && Word(p.minFailureConfidence) && Word(p.minReplacementConfidence) && Long(p.evidenceMaxAge)
    && Word(p.minReplacementCapacity) && Word(p.maxAttempts) && Word(p.maxCandidates) && Word(p.maxRetained)
  }

  function PolicyBounds(p: Policy): seq<Field> {
    [H(IDENTITY_FORMAT), L(p.generation), W(p.minFailureConfidence), W(p.minReplacementConfidence), L(p.evidenceMaxAge),
     W(p.minReplacementCapacity), Flag(p.requireSubjectCapacity), Flag(p.requireAdjacency)]
  }

  function PolicyRules(p: Policy): seq<Field> {
    [Flag(p.allowDegraded), Flag(p.treatDegradedAsFailed), H(AgreementCode(p.agreement)), W(p.maxAttempts), W(p.maxCandidates),
     W(p.maxRetained), Flag(p.requireVerifiedEffect), Flag(p.failoverEnabled)]
  }

  const POLICY_BOUNDS: seq<Shape> := [SH, SL, SW, SW, SL, SW, Boolean, Boolean]
  const POLICY_RULES: seq<Shape> := [Boolean, Boolean, SH, SW, SW, SW, Boolean, Boolean]

  function PolicyFrom(f: seq<Field>, g: seq<Field>): Option<Policy>
    requires |f| == 8 && |g| == 8
  {
    if Num(f[0]) != IDENTITY_FORMAT || Num(g[2]) >= 2 then None
    else
      Some(Policy(Num(f[1]), Num(f[2]), Num(f[3]), Num(f[4]), Num(f[5]), On(f[6]), On(f[7]), On(g[0]), On(g[1]),
                  if Num(g[2]) == 0 then Unanimous else Majority, Num(g[3]), Num(g[4]), Num(g[5]), On(g[6]), On(g[7])))
  }

  function PutPolicy(p: Policy): seq<byte> { BytesOf(PolicyBounds(p)) + BytesOf(PolicyRules(p)) }

  function GetPolicy(s: seq<byte>): Option<(Policy, seq<byte>)> {
    match Get(POLICY_BOUNDS, s)
    case None => None
    case Some((f, s1)) =>
      match Get(POLICY_RULES, s1)
      case None => None
      case Some((g, s2)) => if PolicyFrom(f, g).None? then None else Some((PolicyFrom(f, g).value, s2))
  }

  const POLICY: Coder<Policy> := Coder(PutPolicy, GetPolicy)

  lemma PolicyShapes(p: Policy)
    ensures Shapes(PolicyBounds(p)) == POLICY_BOUNDS
    ensures Shapes(PolicyRules(p)) == POLICY_RULES
  {}

  lemma PolicyFits(p: Policy)
    requires PolicyOk(p)
    ensures AllFit(PolicyBounds(p)) && AllFit(PolicyRules(p))
  {
    hide Pow256;
    Widths();
  }

  lemma PolicyRebuilds(p: Policy)
    ensures PolicyFrom(PolicyBounds(p), PolicyRules(p)) == Some(p)
  {}

  lemma PolicyReadsBack(p: Policy)
    requires PolicyOk(p)
    ensures Faithful(POLICY, p)
  {
    hide Get, BytesOf, PolicyBounds, PolicyRules, PolicyFrom;
    PolicyShapes(p);
    PolicyFits(p);
    PolicyRebuilds(p);
    forall rest ensures GetPolicy(PutPolicy(p) + rest) == Some((p, rest)) {
      var f, g := BytesOf(PolicyBounds(p)), BytesOf(PolicyRules(p));
      assert f + g + rest == f + (g + rest);
      FieldsReadBack(PolicyBounds(p), g + rest);
      FieldsReadBack(PolicyRules(p), rest);
    }
  }

  function LinkFields(d: LinkDefinition): seq<Field> { [T(d.link.fabric), T(d.link.link), L(d.generation), W(d.capacity)] }

  const LINK_SHAPE: seq<Shape> := [ST, ST, SL, SW]

  function PutLink(d: LinkDefinition): seq<byte> { BytesOf(LinkFields(d)) }

  function GetLink(s: seq<byte>): Option<(LinkDefinition, seq<byte>)> {
    match Get(LINK_SHAPE, s)
    case None => None
    case Some((f, rest)) =>
      if !NameOk(Str(f[0])) || !NameOk(Str(f[1])) then None
      else Some((LinkDefinition(LinkKey(Str(f[0]), Str(f[1])), Num(f[2]), Num(f[3])), rest))
  }

  const LINK: Coder<LinkDefinition> := Coder(PutLink, GetLink)

  predicate DefinitionOk(d: LinkDefinition) { LinkOk(d.link) && Long(d.generation) && Word(d.capacity) }

  lemma LinkReadsBack(d: LinkDefinition)
    requires DefinitionOk(d)
    ensures Faithful(LINK, d)
  {
    hide Get, BytesOf;
    Widths();
    var fs := LinkFields(d);
    assert Shapes(fs) == LINK_SHAPE;
    forall rest ensures GetLink(PutLink(d) + rest) == Some((d, rest)) {
      FieldsReadBack(fs, rest);
    }
  }

  predicate TopologyOk(t: Topology) {
    Long(t.generation) && |t.links| <= MAX_TOPOLOGY_LINKS && forall d :: d in t.links ==> DefinitionOk(d)
  }

  function TopologyHead(t: Topology): seq<Field> { [H(IDENTITY_FORMAT), L(t.generation), W(|t.links|)] }

  const TOPOLOGY_HEAD: seq<Shape> := [SH, SL, SW]

  function PutTopology(t: Topology): seq<byte> { BytesOf(TopologyHead(t)) + PutList(LINK, t.links) }

  function GetTopology(s: seq<byte>): Option<(Topology, seq<byte>)> {
    match Get(TOPOLOGY_HEAD, s)
    case None => None
    case Some((f, s1)) =>
      if Num(f[0]) != IDENTITY_FORMAT || Num(f[2]) > MAX_TOPOLOGY_LINKS then None
      else match GetList(LINK, Num(f[2]), s1)
        case None => None
        case Some((links, s2)) => Some((Topology(Num(f[1]), links), s2))
  }

  const TOPOLOGY: Coder<Topology> := Coder(PutTopology, GetTopology)

  lemma TopologyReadsBack(t: Topology)
    requires TopologyOk(t)
    ensures Faithful(TOPOLOGY, t)
  {
    hide Get, BytesOf, PutList, GetList, Faithful;
    Widths();
    var fs := TopologyHead(t);
    assert Shapes(fs) == TOPOLOGY_HEAD;
    forall d | d in t.links ensures Faithful(LINK, d) { LinkReadsBack(d); }
    forall rest ensures GetTopology(PutTopology(t) + rest) == Some((t, rest)) {
      assert BytesOf(fs) + PutList(LINK, t.links) + rest == BytesOf(fs) + (PutList(LINK, t.links) + rest);
      FieldsReadBack(fs, PutList(LINK, t.links) + rest);
      ListReadsBack(LINK, t.links, rest);
    }
    FaithfulIs(TOPOLOGY, t);
  }

  lemma FaithfulIs<V>(c: Coder<V>, v: V)
    requires forall rest :: c.get(c.put(v) + rest) == Some((v, rest))
    ensures Faithful(c, v)
  {}

  // ---- fences ----

  predicate FenceOk(f: FenceRecord) {
    && LinkOk(f.subject) && Long(f.generation) && Long(f.attemptSeq) && Long(f.epoch) && IsIncarnation(f.coordinator) && Long(f.seqno)
    && |f.detail| <= MAX_FENCE_DETAIL
  }

  function FenceFields(f: FenceRecord): seq<Field> {
    [H(IDENTITY_FORMAT), H(FenceCode(f.kind)), T(f.subject.fabric), T(f.subject.link), L(f.generation), L(f.attemptSeq), L(f.epoch),
     Fixed(f.coordinator), L(f.seqno), Text(f.detail, MAX_FENCE_DETAIL)]
  }

  const FENCE_SHAPE: seq<Shape> := [SH, SH, ST, ST, SL, SL, SL, SI, SL, Bounded(MAX_FENCE_DETAIL)]

  function PutFence(f: FenceRecord): seq<byte> { BytesOf(FenceFields(f)) }

  function GetFence(s: seq<byte>): Option<(FenceRecord, seq<byte>)> {
    match Get(FENCE_SHAPE, s)
    case None => None
    case Some((f, rest)) =>
      if Num(f[0]) != IDENTITY_FORMAT || Num(f[1]) >= |FENCE_KINDS| || !NameOk(Str(f[2])) || !NameOk(Str(f[3])) then None
      else
        Some((FenceRecord(FENCE_KINDS[Num(f[1])], LinkKey(Str(f[2]), Str(f[3])), Num(f[4]), Num(f[5]), Num(f[6]), Str(f[7]), Num(f[8]),
                          Str(f[9])), rest))
  }

  const FENCE: Coder<FenceRecord> := Coder(PutFence, GetFence)

  lemma FenceReadsBack(f: FenceRecord)
    requires FenceOk(f)
    ensures Faithful(FENCE, f)
  {
    hide Get, BytesOf;
    Widths();
    CodesReadBack();
    var fs := FenceFields(f);
    assert Shapes(fs) == FENCE_SHAPE;
    forall rest ensures GetFence(PutFence(f) + rest) == Some((f, rest)) {
      FieldsReadBack(fs, rest);
    }
  }

  // ---- idempotency entries ----

  predicate EntryOk(e: IdempotencyEntry) {
    && IsDigest(e.key) && IsDigest(e.decisionId) && ValidName(e.subject.fabric) && ValidName(e.subject.link) && Long(e.generation)
    && (if e.hasReplacement then ValidName(e.replacement.fabric) && ValidName(e.replacement.link) && Long(e.replacementGeneration)
        else e.replacement == NO_LINK && e.replacementGeneration == 0)
    && Long(e.attemptSeq) && Long(e.seqno) && ReasonsOk(e.reasons, MAX_REASONS)
  }

  function EntryHead(e: IdempotencyEntry): seq<Field> {
    [H(IDENTITY_FORMAT), Fixed(e.key), Fixed(e.decisionId), H(KindCode(e.kind)), H(AssertionCode(e.assertion)), H(OutcomeCode(e.outcome)),
     T(e.subject.fabric), T(e.subject.link), L(e.generation), Flag(e.hasReplacement)]
  }

  function EntryReplacement(e: IdempotencyEntry): seq<Field> {
    if e.hasReplacement then [T(e.replacement.fabric), T(e.replacement.link), L(e.replacementGeneration)] else []
  }

  function EntryTail(e: IdempotencyEntry): seq<Field> { [L(e.attemptSeq), L(e.seqno), W(|e.reasons|)] }

  const ENTRY_HEAD: seq<Shape> := [SH, SD, SD, SH, SH, SH, ST, ST, SL, Boolean]
  const ENTRY_REPLACEMENT: seq<Shape> := [ST, ST, SL]
  const ENTRY_TAIL: seq<Shape> := [SL, SL, SW]

  function PutEntry(e: IdempotencyEntry): seq<byte> {
    BytesOf(EntryHead(e)) + (BytesOf(EntryReplacement(e)) + (BytesOf(EntryTail(e)) + PutList(REASON, e.reasons)))
  }

  function EntryFrom(h: seq<Field>, p: seq<Field>, t: seq<Field>, rs: seq<Reason>): Option<IdempotencyEntry>
    requires |h| == 10 && (p == [] || |p| == 3) && |t| == 3
  {
    if Num(h[0]) != IDENTITY_FORMAT || Num(h[3]) >= |KINDS| || Num(h[4]) >= |ASSERTIONS| || Num(h[5]) >= |OUTCOMES|
       || Num(t[2]) > MAX_REASONS || !ValidName(Str(h[6])) || !ValidName(Str(h[7])) then None
    else if p != [] && (!ValidName(Str(p[0])) || !ValidName(Str(p[1]))) then None
    else
      Some(IdempotencyEntry(
        Str(h[1]), Str(h[2]), KINDS[Num(h[3])], ASSERTIONS[Num(h[4])], OUTCOMES[Num(h[5])], LinkKey(Str(h[6]), Str(h[7])), Num(h[8]),
        p != [], if p == [] then NO_LINK else LinkKey(Str(p[0]), Str(p[1])), if p == [] then 0 else Num(p[2]),
        Num(t[0]), Num(t[1]), rs))
  }

  function GetEntry(s: seq<byte>): Option<(IdempotencyEntry, seq<byte>)> {
    match Get(ENTRY_HEAD, s)
    case None => None
    case Some((h, s1)) =>
      match Get(if On(h[9]) then ENTRY_REPLACEMENT else [], s1)
      case None => None
      case Some((p, s2)) =>
        match Get(ENTRY_TAIL, s2)
        case None => None
        case Some((t, s3)) =>
          if EntryFrom(h, p, t, []).None? then None
          else match GetList(REASON, Num(t[2]), s3)
            case None => None
            case Some((rs, s4)) => Some((EntryFrom(h, p, t, rs).value, s4))
  }

  const ENTRY: Coder<IdempotencyEntry> := Coder(PutEntry, GetEntry)

  lemma EntryLayout(e: IdempotencyEntry)
    requires EntryOk(e)
    ensures Shapes(EntryHead(e)) == ENTRY_HEAD && AllFit(EntryHead(e)) && On(EntryHead(e)[9]) == e.hasReplacement
    ensures Shapes(EntryReplacement(e)) == (if e.hasReplacement then ENTRY_REPLACEMENT else []) && AllFit(EntryReplacement(e))
    ensures Shapes(EntryTail(e)) == ENTRY_TAIL && AllFit(EntryTail(e)) && Num(EntryTail(e)[2]) == |e.reasons|
  {
    Widths();
    CodesReadBack();
  }

  lemma EntryRebuilds(e: IdempotencyEntry, rs: seq<Reason>)
    requires EntryOk(e)
    ensures EntryFrom(EntryHead(e), EntryReplacement(e), EntryTail(e), rs) == Some(e.(reasons := rs))
  {
    CodesReadBack();
  }

  lemma EntryReadsBack(e: IdempotencyEntry)
    requires EntryOk(e)
    ensures Faithful(ENTRY, e)
  {
    hide Get, BytesOf, EntryHead, EntryReplacement, EntryTail, EntryFrom, PutList, GetList;
    EntryLayout(e);
    EntryRebuilds(e, e.reasons);
    EntryRebuilds(e, []);
    forall rest ensures GetEntry(PutEntry(e) + rest) == Some((e, rest)) {
      var h, p, t, l := BytesOf(EntryHead(e)), BytesOf(EntryReplacement(e)), BytesOf(EntryTail(e)), PutList(REASON, e.reasons);
      assert h + (p + (t + l)) + rest == h + (p + (t + (l + rest)));
      FieldsReadBack(EntryHead(e), p + (t + (l + rest)));
      FieldsReadBack(EntryReplacement(e), t + (l + rest));
      FieldsReadBack(EntryTail(e), l + rest);
      ReasonsReadBack(e.reasons, MAX_REASONS, rest);
    }
  }

  // ---- what the index is sure to hold ----

  lemma {:induction false} ReasonsSize(rs: seq<Reason>)
    requires forall r :: r in rs ==> |r.detail| <= MAX_REASON_DETAIL
    ensures |PutList(REASON, rs)| <= |rs| * 166
    decreases |rs|
  {
    if rs != [] {
      assert rs[0] in rs;
      ReasonsSize(rs[1..]);
      ReasonSize(rs[0]);
    }
  }

  lemma ReasonSize(r: Reason)
    ensures |PutReason(r)| == 6 + |r.detail|
  {
    var fs := ReasonFields(r);
    assert fs[1..] == [fs[1]] && [fs[1]][1..] == [];
    assert BytesOf([fs[1]]) == FieldBytes(fs[1]) + BytesOf([]);
    assert |FieldBytes(fs[0])| == 2 && |FieldBytes(fs[1])| == 4 + |r.detail|;
  }

  lemma {:induction false} FieldsSize(fs: seq<Field>, each: nat)
    requires forall i :: 0 <= i < |fs| ==> |FieldBytes(fs[i])| <= each
    ensures |BytesOf(fs)| <= |fs| * each
    decreases |fs|
  {
    hide FieldBytes;
    if fs != [] {
      FieldsSize(fs[1..], each);
    }
  }

  lemma HeadSize(e: IdempotencyEntry)
    requires EntryOk(e)
    ensures |BytesOf(EntryHead(e))| <= 680 && |BytesOf(EntryReplacement(e))| <= 204 && |BytesOf(EntryTail(e))| <= 204
  {
    hide NameChar;
    FieldsSize(EntryHead(e), 68);
    FieldsSize(EntryReplacement(e), 68);
    FieldsSize(EntryTail(e), 68);
  }

  /** A well-formed entry with a few reasons - a grant's has two - always fits the index's bound of 4096 bytes. */
  lemma ShortEntriesFit(e: IdempotencyEntry)
    requires EntryOk(e) && |e.reasons| <= 18
    ensures |PutEntry(e)| <= 4096
  {
    hide PutList, BytesOf, EntryHead, EntryReplacement, EntryTail;
    HeadSize(e);
    ReasonsSize(e.reasons);
  }
}
