/** The payloads of every journal record, and that replay reads each back. */
module Payloads {
  import opened Basics
  import opened ByteBits
  import opened Bytes
  import opened Codec
  import opened Reasons
  import opened Records
  import opened Lineage
  import opened Invariant
  import opened Refinement
  import opened StoreSafety
  import opened RecordCodec
  import opened Durability
  import J = JournalBytes

  const MAX_DECISION_CANDIDATES: nat := 256
  const MAX_ASSESSMENT_DETAIL: nat := 256
  const MAX_BUILD_TEXT: nat := 64

  // ---- a value that fills its payload ----

  /** A payload is read whole: what is left over refuses it. */
  function Whole<V>(c: Coder<V>, payload: seq<byte>): Option<V> {
    match c.get(payload)
    case None => None
    case Some((v, rest)) => if rest == [] then Some(v) else None
  }

  lemma WholeReadsBack<V>(c: Coder<V>, v: V)
    requires Faithful(c, v)
    ensures Whole(c, c.put(v)) == Some(v)
  {
    assert c.put(v) + [] == c.put(v);
  }

  // ---- decisions ----

  const STATES: seq<ObservationState> := [ObservationState.Unknown, Up, Degraded, Down, Unusable]
  const FRESHNESS: seq<Freshness> := [Freshness.Current, Freshness.Expired, Freshness.PriorIncarnation, Freshness.Future]
  const VERDICTS: seq<Verdict> := [Verdict.Eligible, Verdict.Disproven, Verdict.Indeterminate]

  function StateCode(s: ObservationState): nat {
    match s
    case Unknown => 0
    case Up => 1
    case Degraded => 2
    case Down => 3
    case Unusable => 4
  }

  function FreshnessCode(f: Freshness): nat {
    match f
    case Current => 0
    case Expired => 1
    case PriorIncarnation => 2
    case Future => 3
  }

  function VerdictCode(v: Verdict): nat {
    match v
    case Eligible => 0
    case Disproven => 1
    case Indeterminate => 2
  }

  predicate AssessmentOk(a: Assessment) {
    && LinkOk(a.candidate) && Long(a.generation) && a.reason < REASON_CODE_COUNT && a.confidence <= MAX_CONFIDENCE
    && Long(a.age) && Word(a.capacity) && Word(a.cost) && IsDigest(a.evidenceDigest) && |a.detail| <= MAX_ASSESSMENT_DETAIL
  }

  function AssessmentFields(a: Assessment): seq<Field> {
    [T(a.candidate.fabric), T(a.candidate.link), L(a.generation), H(VerdictCode(a.verdict)), H(a.reason), Text(a.detail, MAX_ASSESSMENT_DETAIL),
     H(StateCode(a.state)), W(a.confidence), H(FreshnessCode(a.freshness)), L(a.age), W(a.capacity), W(a.cost),
     Flag(a.adjacencyAuthorized), Fixed(a.evidenceDigest)]
  }

  const ASSESSMENT_SHAPE: seq<Shape> := [ST, ST, SL, SH, SH, Bounded(MAX_ASSESSMENT_DETAIL), SH, SW, SH, SL, SW, SW, Boolean, SD]

  function PutAssessment(a: Assessment): seq<byte> { BytesOf(AssessmentFields(a)) }

  function AssessmentFrom(f: seq<Field>): Option<Assessment>
    requires |f| == 14
  {
    if Num(f[3]) >= |VERDICTS| || Num(f[4]) >= REASON_CODE_COUNT || Num(f[6]) >= |STATES| || Num(f[8]) >= |FRESHNESS|
       || Num(f[7]) > MAX_CONFIDENCE || !NameOk(Str(f[0])) || !NameOk(Str(f[1])) then None
    else
      Some(Assessment(LinkKey(Str(f[0]), Str(f[1])), Num(f[2]), VERDICTS[Num(f[3])], Num(f[4]), STATES[Num(f[6])], Num(f[7]),
                      FRESHNESS[Num(f[8])], Num(f[9]), Num(f[10]), Num(f[11]), On(f[12]), Str(f[13]), Str(f[5])))
  }

  function GetAssessment(s: seq<byte>): Option<(Assessment, seq<byte>)> {
    match Get(ASSESSMENT_SHAPE, s)
    case None => None
    case Some((f, rest)) => if AssessmentFrom(f).None? then None else Some((AssessmentFrom(f).value, rest))
  }

  const ASSESSMENT: Coder<Assessment> := Coder(PutAssessment, GetAssessment)

  lemma AssessmentLayout(a: Assessment)
    requires AssessmentOk(a)
    ensures Shapes(AssessmentFields(a)) == ASSESSMENT_SHAPE && AllFit(AssessmentFields(a))
    ensures AssessmentFrom(AssessmentFields(a)) == Some(a)
  {
    hide NameChar, Pow256;
    Widths();
  }

  lemma AssessmentReadsBack(a: Assessment)
    requires AssessmentOk(a)
    ensures Faithful(ASSESSMENT, a)
  {
    hide Get, BytesOf, AssessmentFields, AssessmentFrom;
    AssessmentLayout(a);
    forall rest ensures GetAssessment(PutAssessment(a) + rest) == Some((a, rest)) {
      FieldsReadBack(AssessmentFields(a), rest);
    }
  }

  predicate DecisionOk(d: Decision) {
    && IsDigest(d.decisionId) && NameOk(d.fabric) && LinkOk(d.subject) && Long(d.generation)
    && LinkOk(d.replacement) && Long(d.replacementGeneration)
    && (!d.hasReplacement ==> d.replacement == NO_LINK && d.replacementGeneration == 0)
    && Long(d.attemptSeq) && IsDigest(d.attemptId) && Long(d.epoch) && IsIncarnation(d.coordinator) && AuthorityOk(d.authority)
    && IsDigest(d.evidenceDigest) && Long(d.lineageSeq) && ReasonsOk(d.reasons, MAX_REASONS)
    && |d.candidates| <= MAX_DECISION_CANDIDATES && forall a :: a in d.candidates ==> AssessmentOk(a)
  }

  function DecisionHead(d: Decision): seq<Field> {
    [H(IDENTITY_FORMAT), Fixed(d.decisionId), H(KindCode(d.kind)), H(AssertionCode(d.assertion)), H(OutcomeCode(d.outcome)),
     T(d.fabric), T(d.subject.fabric), T(d.subject.link), L(d.generation), Flag(d.hasReplacement)]
  }

  function DecisionReplacement(d: Decision): seq<Field> {
    if d.hasReplacement then [T(d.replacement.fabric), T(d.replacement.link), L(d.replacementGeneration)] else []
  }

  function DecisionAttempt(d: Decision): seq<Field> { [L(d.attemptSeq), Fixed(d.attemptId), L(d.epoch), Fixed(d.coordinator)] }

  function DecisionTail(d: Decision): seq<Field> {
    [Fixed(d.evidenceDigest), L(d.lineageSeq), Flag(d.durable), Flag(d.idempotentReplay), W(|d.reasons|)]
  }

  const DECISION_HEAD: seq<Shape> := [SH, SD, SH, SH, SH, ST, ST, ST, SL, Boolean]
  const DECISION_REPLACEMENT: seq<Shape> := [ST, ST, SL]
  const DECISION_ATTEMPT: seq<Shape> := [SL, SD, SL, SI]
  const DECISION_TAIL: seq<Shape> := [SD, SL, Boolean, Boolean, SW]

  function PutCandidates(d: Decision): seq<byte> { BytesOf([W(|d.candidates|)]) + PutList(ASSESSMENT, d.candidates) }

  function PutDecision(d: Decision): seq<byte> {
    BytesOf(DecisionHead(d)) + (BytesOf(DecisionReplacement(d)) + (BytesOf(DecisionAttempt(d)) + (PutAuthority(d.authority)
      + (BytesOf(DecisionTail(d)) + (PutList(REASON, d.reasons) + PutCandidates(d))))))
  }

  /** The decision of its fixed parts, without its two lists. */
  function DecisionFrom(h: seq<Field>, p: seq<Field>, a: seq<Field>, authority: AuthorityVector, t: seq<Field>): Option<Decision>
    requires |h| == 10 && (p == [] || |p| == 3) && |a| == 4 && |t| == 5
  {
    if Num(h[0]) != IDENTITY_FORMAT || Num(h[2]) >= |KINDS| || Num(h[3]) >= |ASSERTIONS| || Num(h[4]) >= |OUTCOMES|
       || !NameOk(Str(h[5])) || !NameOk(Str(h[6])) || !NameOk(Str(h[7])) then None
    else if p != [] && (!NameOk(Str(p[0])) || !NameOk(Str(p[1]))) then None
    else
      Some(Decision(
        Str(h[1]), KINDS[Num(h[2])], ASSERTIONS[Num(h[3])], OUTCOMES[Num(h[4])], Str(h[5]), LinkKey(Str(h[6]), Str(h[7])), Num(h[8]),
        p != [], if p == [] then NO_LINK else LinkKey(Str(p[0]), Str(p[1])), if p == [] then 0 else Num(p[2]),
        Num(a[0]), Str(a[1]), Num(a[2]), Str(a[3]), authority, Str(t[0]), Num(t[1]), On(t[2]), On(t[3]), [], []))
  }

  function GetCandidates(s: seq<byte>): Option<(seq<Assessment>, seq<byte>)> {
    match Get([SW], s)
    case None => None
    case Some((f, rest)) => if Num(f[0]) > MAX_DECISION_CANDIDATES then None else GetList(ASSESSMENT, Num(f[0]), rest)
  }

  /** The lists that end a decision: as many reasons as announced, then the candidates. */
  function GetLists(d: Decision, count: nat, s: seq<byte>): Option<(Decision, seq<byte>)> {
    if count > MAX_REASONS then None
    else match GetList(REASON, count, s)
      case None => None
      case Some((reasons, s1)) =>
        match GetCandidates(s1)
        case None => None
        case Some((candidates, s2)) => Some((d.(reasons := reasons, candidates := candidates), s2))
  }

  function GetDecision(s: seq<byte>): Option<(Decision, seq<byte>)> {
    match Get(DECISION_HEAD, s)
    case None => None
    case Some((h, s1)) =>
      match Get(if On(h[9]) then DECISION_REPLACEMENT else [], s1)
      case None => None
      case Some((p, s2)) =>
        match Get(DECISION_ATTEMPT, s2)
        case None => None
        case Some((a, s3)) =>
          match GetAuthority(s3)
          case None => None
          case Some((authority, s4)) =>
            match Get(DECISION_TAIL, s4)
            case None => None
            case Some((t, s5)) =>
              var d := DecisionFrom(h, p, a, authority, t);
              if d.None? then None else GetLists(d.value, Num(t[4]), s5)
  }

  const DECISION: Coder<Decision> := Coder(PutDecision, GetDecision)

  lemma DecisionLayout(d: Decision)
    requires DecisionOk(d)
    ensures Shapes(DecisionHead(d)) == DECISION_HEAD && AllFit(DecisionHead(d)) && On(DecisionHead(d)[9]) == d.hasReplacement
    ensures Shapes(DecisionReplacement(d)) == (if d.hasReplacement then DECISION_REPLACEMENT else []) && AllFit(DecisionReplacement(d))
    ensures Shapes(DecisionAttempt(d)) == DECISION_ATTEMPT && AllFit(DecisionAttempt(d))
    ensures Shapes(DecisionTail(d)) == DECISION_TAIL && AllFit(DecisionTail(d)) && Num(DecisionTail(d)[4]) == |d.reasons|
  {
    hide NameChar, Pow256, AuthorityOk, AssessmentOk;
    Widths();
    CodesReadBack();
  }

  lemma DecisionRebuilds(d: Decision)
    requires DecisionOk(d)
    ensures DecisionFrom(DecisionHead(d), DecisionReplacement(d), DecisionAttempt(d), d.authority, DecisionTail(d))
         == Some(d.(reasons := [], candidates := []))
  {
    hide ValidName, AuthorityOk, AssessmentOk;
    CodesReadBack();
  }

  lemma CandidatesReadBack(d: Decision, rest: seq<byte>)
    requires DecisionOk(d)
    ensures GetCandidates(PutCandidates(d) + rest) == Some((d.candidates, rest))
  {
    hide Get, BytesOf, PutList, GetList, Faithful, AssessmentOk;
    Widths();
    var fs := [W(|d.candidates|)];
    assert Shapes(fs) == [SW] && AllFit(fs);
    forall a | a in d.candidates ensures Faithful(ASSESSMENT, a) { AssessmentReadsBack(a); }
    assert PutCandidates(d) + rest == BytesOf(fs) + (PutList(ASSESSMENT, d.candidates) + rest);
    FieldsReadBack(fs, PutList(ASSESSMENT, d.candidates) + rest);
    ListReadsBack(ASSESSMENT, d.candidates, rest);
  }

  lemma ListsReadBack(d: Decision, x: Decision, rest: seq<byte>)
    requires DecisionOk(d) && x == d.(reasons := [], candidates := [])
    ensures GetLists(x, |d.reasons|, PutList(REASON, d.reasons) + (PutCandidates(d) + rest)) == Some((d, rest))
  {
    hide PutList, GetList, PutCandidates, GetCandidates;
    ReasonsReadBack(d.reasons, MAX_REASONS, PutCandidates(d) + rest);
    CandidatesReadBack(d, rest);
  }

  lemma DecisionReadsBack(d: Decision)
    requires DecisionOk(d)
    ensures Faithful(DECISION, d)
  {
    hide Get, BytesOf, DecisionHead, DecisionReplacement, DecisionAttempt, DecisionTail, DecisionFrom, PutList, GetLists, PutAuthority, GetAuthority,
      PutCandidates, AuthorityOk;
    DecisionLayout(d);
    DecisionRebuilds(d);
    AuthorityReadsBack(d.authority);
    forall rest ensures GetDecision(PutDecision(d) + rest) == Some((d, rest)) {
      var h, p, a, t := BytesOf(DecisionHead(d)), BytesOf(DecisionReplacement(d)), BytesOf(DecisionAttempt(d)), BytesOf(DecisionTail(d));
      var u, l, k := PutAuthority(d.authority), PutList(REASON, d.reasons), PutCandidates(d);
      assert h + (p + (a + (u + (t + (l + k))))) + rest == h + (p + (a + (u + (t + (l + (k + rest))))));
      FieldsReadBack(DecisionHead(d), p + (a + (u + (t + (l + (k + rest))))));
      FieldsReadBack(DecisionReplacement(d), a + (u + (t + (l + (k + rest)))));
      FieldsReadBack(DecisionAttempt(d), u + (t + (l + (k + rest))));
      assert AUTHORITY.get(AUTHORITY.put(d.authority) + (t + (l + (k + rest)))) == Some((d.authority, t + (l + (k + rest))));
      FieldsReadBack(DecisionTail(d), l + (k + rest));
      ListsReadBack(d, d.(reasons := [], candidates := []), rest);
    }
  }

  // ---- boots ----

  /** What a build writes about itself: its two texts, and the size of the snapshot a mark covers, which replay does not read. */
  datatype Build = Build(toolchain: seq<byte>, architecture: seq<byte>, snapshotBytes: nat)

  predicate BuildOk(b: Build) { |b.toolchain| <= MAX_BUILD_TEXT && |b.architecture| <= MAX_BUILD_TEXT }

  function BootFields(b: Build, rec: Record): seq<Field>
    requires rec.Boot?
  {
    [H(IDENTITY_FORMAT), L(rec.epoch), Fixed(rec.coordinator), L(rec.bootCount), L(rec.epochAdvances),
     Text(b.toolchain, MAX_BUILD_TEXT), Text(b.architecture, MAX_BUILD_TEXT)]
  }

  const BOOT_SHAPE: seq<Shape> := [SH, SL, SI, SL, SL, Bounded(MAX_BUILD_TEXT), Bounded(MAX_BUILD_TEXT)]

  function GetBoot(s: seq<byte>): Option<Record> {
    match Get(BOOT_SHAPE, s)
    case None => None
    case Some((f, rest)) =>
      if Num(f[0]) != IDENTITY_FORMAT || rest != [] then None else Some(Boot(Num(f[1]), Str(f[2]), Num(f[3]), Num(f[4])))
  }

  lemma BootReadsBack(b: Build, rec: Record)
    requires BuildOk(b) && rec.Boot? && RecordOk(rec)
    ensures GetBoot(BytesOf(BootFields(b, rec))) == Some(rec)
  {
    hide Get, BytesOf;
    Widths();
    var fs := BootFields(b, rec);
    assert Shapes(fs) == BOOT_SHAPE;
    FieldsReadBack(fs, []);
    assert BytesOf(fs) + [] == BytesOf(fs);
  }

  // ---- every record ----

  /** The values of a record are in the ranges of their types. */
  predicate RecordOk(rec: Record) {
    match rec
    case Boot(epoch, coordinator, boots, advances) => Long(epoch) && IsIncarnation(coordinator) && Long(boots) && Long(advances)
    case PolicyCommit(p) => PolicyOk(p)
    case TopologyCommit(t) => TopologyOk(t)
    case AttemptPut(_, r) => AttemptOk(r)
    case FencePut(f) => FenceOk(f)
    case DecisionCommit(d) => DecisionOk(d)
    case IdempotencyIndex(e) => EntryOk(e)
    case CheckpointMark(_, _) => true
    case ShutdownMark(_, coordinator, _) => IsIncarnation(coordinator)
  }

  function PutCode(kind: PutKind): nat {
    match kind
    case Create => 3
    case Update => 4
    case Interruption => 4
    case Completion => 7
    case Rollback => 8
  }

  /** The journal's type number of a record, and its payload. */
  function Encoded(b: Build, rec: Record): (nat, seq<byte>) {
    match rec
    case Boot(_, _, _, _) => (0, BytesOf(BootFields(b, rec)))
    case PolicyCommit(p) => (1, PutPolicy(p))
    case TopologyCommit(t) => (2, PutTopology(t))
    case AttemptPut(kind, r) => (PutCode(kind), PutAttempt(r))
    case DecisionCommit(d) => (5, PutDecision(d))
    case FencePut(f) => (6, PutFence(f))
    case IdempotencyIndex(e) => (9, PutEntry(e))
    case CheckpointMark(covers, count) => (10, BytesOf([H(IDENTITY_FORMAT), L(covers), L(count), L(b.snapshotBytes)]))
    case ShutdownMark(epoch, coordinator, last) => (11, BytesOf([H(IDENTITY_FORMAT), L(epoch), Fixed(coordinator), L(last)]))
  }

  function Puts(kind: PutKind, r: Option<AttemptRecord>): Option<Record> {
    if r.None? then None else Some(AttemptPut(kind, r.value))
  }

  /** What replay reads; the two marks carry nothing that it looks at. */
  function Decoded(kind: nat, payload: seq<byte>): Option<Record> {
    if kind == 0 then GetBoot(payload)
    else if kind == 1 then var p := Whole(RecordCodec.POLICY, payload); if p.None? then None else Some(PolicyCommit(p.value))
    else if kind == 2 then var t := Whole(TOPOLOGY, payload); if t.None? then None else Some(TopologyCommit(t.value))
    else if kind == 3 then Puts(Create, Whole(ATTEMPT, payload))
    else if kind == 4 then Puts(Update, Whole(ATTEMPT, payload))
    else if kind == 5 then var d := Whole(DECISION, payload); if d.None? then None else Some(DecisionCommit(d.value))
    else if kind == 6 then var f := Whole(RecordCodec.FENCE, payload); if f.None? then None else Some(FencePut(f.value))
    else if kind == 7 then Puts(Completion, Whole(ATTEMPT, payload))
    else if kind == 8 then Puts(PutKind.Rollback, Whole(ATTEMPT, payload))
    else if kind == 9 then var e := Whole(ENTRY, payload); if e.None? then None else Some(IdempotencyIndex(e.value))
    else Some(CheckpointMark(0, 0))
  }

  /** The journal's payload codec. */
  function TheCodec(b: Build): PayloadCodec {
    PayloadCodec(rec => Encoded(b, rec), (kind: nat, payload: seq<byte>) => Decoded(kind, payload))
  }

  // ---- sizes ----

  lemma {:induction false} ListSize<V>(c: Coder<V>, vs: seq<V>, each: nat)
    requires forall v :: v in vs ==> |c.put(v)| <= each
    ensures |PutList(c, vs)| <= |vs| * each
    decreases |vs|
  {
    if vs != [] {
      assert vs[0] in vs;
      ListSize(c, vs[1..], each);
    }
  }

  lemma LinkSize(d: LinkDefinition)
    requires DefinitionOk(d)
    ensures |PutLink(d)| <= 148
  {
    hide NameChar;
    var fs := LinkFields(d);
    assert fs[1..][1..] == fs[2..] && fs[2..][1..] == fs[3..] && fs[3..][1..] == [];
    assert BytesOf(fs[3..]) == FieldBytes(fs[3]) + BytesOf([]);
    assert BytesOf(fs[2..]) == FieldBytes(fs[2]) + BytesOf(fs[3..]);
    assert BytesOf(fs[1..]) == FieldBytes(fs[1]) + BytesOf(fs[2..]);
  }

  lemma TopologySize(t: Topology)
    requires TopologyOk(t)
    ensures |PutTopology(t)| <= J.MAX_RECORD_PAYLOAD
  {
    hide PutList, BytesOf, DefinitionOk;
    FieldsSize(TopologyHead(t), 8);
    forall d | d in t.links ensures |RecordCodec.LINK.put(d)| <= 148 { LinkSize(d); }
    ListSize(RecordCodec.LINK, t.links, 148);
  }

  lemma AuthoritySize(a: AuthorityVector)
    requires AuthorityOk(a)
    ensures |PutAuthority(a)| <= 1360
  {
    hide NameChar, BytesOf;
    FieldsSize(AuthorityIdentity(a), 68);
    FieldsSize(AuthorityBinding(a), 68);
  }

  lemma AttemptSize(r: AttemptRecord)
    requires AttemptOk(r)
    ensures |PutAttempt(r)| <= J.MAX_RECORD_PAYLOAD
  {
    hide BytesOf, PutList, AuthorityOk, LinkOk, AttemptHead, AttemptMiddle, AttemptPredecessor, AttemptTail;
    AuthoritySize(r.authority);
    AttemptFieldsSize(r);
    ReasonsSize(r.reasons);
  }

  lemma AttemptFieldsSize(r: AttemptRecord)
    requires AttemptOk(r)
    ensures |BytesOf(AttemptHead(r))| <= 748 && |BytesOf(AttemptMiddle(r))| <= 476
    ensures |BytesOf(AttemptPredecessor(r))| <= 68 && |BytesOf(AttemptTail(r))| <= 272
  {
    hide BytesOf, AuthorityOk, NameChar, ReasonsOk;
    FieldsSize(AttemptHead(r), 68);
    FieldsSize(AttemptMiddle(r), 68);
    FieldsSize(AttemptPredecessor(r), 68);
    FieldsSize(AttemptTail(r), 68);
  }

  lemma AssessmentSize(a: Assessment)
    requires AssessmentOk(a)
    ensures |PutAssessment(a)| <= 3640
  {
    hide NameChar, BytesOf;
    FieldsSize(AssessmentFields(a), 260);
  }

  lemma DecisionSize(d: Decision)
    requires DecisionOk(d)
    ensures |PutDecision(d)| <= J.MAX_RECORD_PAYLOAD
  {
    hide BytesOf, PutList, AuthorityOk, NameChar, AssessmentOk;
    AuthoritySize(d.authority);
    FieldsSize(DecisionHead(d), 68);
    FieldsSize(DecisionReplacement(d), 68);
    FieldsSize(DecisionAttempt(d), 68);
    FieldsSize(DecisionTail(d), 68);
    FieldsSize([W(|d.candidates|)], 68);
    ReasonsSize(d.reasons);
    forall a | a in d.candidates ensures |ASSESSMENT.put(a)| <= 3640 { AssessmentSize(a); }
    ListSize(ASSESSMENT, d.candidates, 3640);
  }

  lemma EntrySize(e: IdempotencyEntry)
    requires EntryOk(e)
    ensures |PutEntry(e)| <= J.MAX_RECORD_PAYLOAD
  {
    hide PutList, BytesOf, EntryHead, EntryReplacement, EntryTail;
    HeadSize(e);
    ReasonsSize(e.reasons);
  }

  lemma SmallSizes(b: Build, rec: Record)
    requires BuildOk(b) && RecordOk(rec)
    ensures rec.Boot? || rec.PolicyCommit? || rec.FencePut? || rec.CheckpointMark? || rec.ShutdownMark? ==>
              |Encoded(b, rec).1| <= J.MAX_RECORD_PAYLOAD
  {
    hide NameChar, BytesOf;
    match rec
    case Boot(_, _, _, _) => FieldsSize(BootFields(b, rec), 600);
    case PolicyCommit(p) => FieldsSize(PolicyBounds(p), 600); FieldsSize(PolicyRules(p), 600);
    case FencePut(f) => FieldsSize(FenceFields(f), 600);
    case CheckpointMark(covers, count) => FieldsSize([H(IDENTITY_FORMAT), L(covers), L(count), L(b.snapshotBytes)], 600);
    case ShutdownMark(epoch, coordinator, last) => FieldsSize([H(IDENTITY_FORMAT), L(epoch), Fixed(coordinator), L(last)], 600);
    case _ =>
  }

  // ---- the codec carries every record ----

  lemma EncodedFits(b: Build, rec: Record)
    requires BuildOk(b) && RecordOk(rec)
    ensures Encoded(b, rec).0 < J.RECORD_TYPE_COUNT && |Encoded(b, rec).1| <= J.MAX_RECORD_PAYLOAD
  {
    SmallSizes(b, rec);
    hide PutTopology, PutAttempt, PutDecision, PutEntry, PutFence, PutPolicy, BytesOf;
    match rec
    case TopologyCommit(t) => TopologySize(t);
    case AttemptPut(_, r) => AttemptSize(r);
    case DecisionCommit(d) => DecisionSize(d);
    case IdempotencyIndex(e) => EntrySize(e);
    case _ =>
  }

  /** What replay reads back, up to what it looks at: an interruption is written as an update, and marks are not read. */
  function Readable(rec: Record): Record {
    match rec
    case AttemptPut(kind, r) => if kind.Interruption? then AttemptPut(Update, r) else rec
    case CheckpointMark(_, _) => CheckpointMark(0, 0)
    case ShutdownMark(_, _, _) => CheckpointMark(0, 0)
    case _ => rec
  }

  lemma ReadableReadsAs(rec: Record)
    ensures ReadsAs(Readable(rec), rec)
  {
    hide Upsert, RetainAttempts, RetainFences, RetainEntries;
  }

  lemma DecodesBack(b: Build, rec: Record)
    requires BuildOk(b) && RecordOk(rec)
    ensures Decoded(Encoded(b, rec).0, Encoded(b, rec).1) == Some(Readable(rec))
  {
    hide PutTopology, PutAttempt, PutDecision, PutEntry, PutFence, PutPolicy, BytesOf, GetBoot, Whole, Faithful;
    match rec
    case Boot(_, _, _, _) => BootReadsBack(b, rec);
    case PolicyCommit(p) => PolicyReadsBack(p); WholeReadsBack(RecordCodec.POLICY, p);
    case TopologyCommit(t) => TopologyReadsBack(t); WholeReadsBack(TOPOLOGY, t);
    case AttemptPut(kind, r) => AttemptReadsBack(r); WholeReadsBack(ATTEMPT, r);
    case FencePut(f) => FenceReadsBack(f); WholeReadsBack(RecordCodec.FENCE, f);
    case DecisionCommit(d) => DecisionReadsBack(d); WholeReadsBack(DECISION, d);
    case IdempotencyIndex(e) => EntryReadsBack(e); WholeReadsBack(ENTRY, e);
    case CheckpointMark(_, _) =>
    case ShutdownMark(_, _, _) =>
  }

  /** Every well-typed record fits the journal and is replayed from its payload as it was committed. */
  lemma EveryRecordIsCarried(b: Build, rec: Record)
    requires BuildOk(b) && RecordOk(rec)
    ensures Carries(TheCodec(b), rec)
  {
    hide Encoded, Decoded, ReadsAs, RecordOk;
    EncodedFits(b, rec);
    DecodesBack(b, rec);
    ReadableReadsAs(rec);
  }

  /** A legal, well-typed record other than a fence is about to be appended to a medium without uncovered fences. */
  ghost predicate Appending(s: StoreState, h: History, rec: Record, o: StoreOptions) {
    && !s.failed && o.limits == s.limits && s.d.lastSeq + 1 < U64_LIMIT
    && Legal(s.d, h, rec, o.limits) && !rec.FencePut? && FenceFree(s.medium)
    && RecordOk(rec)
  }

  function BytesOfNext(sum: J.Checksum, b: Build, s: StoreState, rec: Record): seq<byte> {
    J.RecordBytes(sum, Written(TheCodec(b), Entry(s.d.lastSeq + 1, rec)))
  }

  lemma CrashWhileAppending(sum: J.Checksum, b: Build, s: StoreState, h: History, rec: Record, o: StoreOptions, cut: nat)
    requires StoreInv(s, h) && Appending(s, h, rec, o) && BuildOk(b) && cut <= |BytesOfNext(sum, b, s, rec)|
    requires forall e :: e in EntriesOf(s.medium) ==> RecordOk(e.record)
    ensures CrashesCleanly(sum, TheCodec(b), s.medium, s.d, rec, o, cut)
  {
    hide Legal, RecordOk, Carries, TheCodec, CrashesCleanly, FenceFree, Inv, Describes, J.RecordBytes;
    var c := TheCodec(b);
    EveryRecordIsCarried(b, rec);
    forall e | e in EntriesOf(s.medium) ensures Carries(c, e.record) { EveryRecordIsCarried(b, e.record); }
    TableFits(s.d, h, rec, s.limits);
    CrashAtAnyByte(sum, c, s.medium, s.d, h, rec, o, cut);
  }
}
