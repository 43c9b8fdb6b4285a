/** The policy's text form: what the printer writes and what the parser accepts. */
module PolicyText {
  import opened Basics
  import opened Records

  // ---- unsigned decimal numbers ----

  predicate IsDigit(c: char) { '0' <= c <= '9' }

  function DigitValue(c: char): nat
    requires IsDigit(c)
  {
    (c - '0') as nat
  }

  predicate Decimal(s: string) { forall i :: 0 <= i < |s| ==> IsDigit(s[i]) }

  function ValueOf(s: string): nat
    requires Decimal(s)
  {
    if s == "" then 0 else 10 * ValueOf(s[..|s| - 1]) + DigitValue(s[|s| - 1])
  }

  /** The value only grows as digits are appended. */
  lemma {:induction false} ValueGrows(s: string, k: nat)
    requires Decimal(s) && k <= |s|
    ensures ValueOf(s[..k]) <= ValueOf(s)
    decreases |s|
  {
    if k == |s| {
      assert s[..k] == s;
    } else {
      assert s[..|s| - 1][..k] == s[..k];
      ValueGrows(s[..|s| - 1], k);
    }
  }

  const MAX_U64_DIGITS: nat := 20

  /** The numbers the parser accepts: 1 to 20 decimal digits whose value fits in 64 bits. */
  function Accepted(s: string): Option<nat> {
    if 0 < |s| <= MAX_U64_DIGITS && Decimal(s) && ValueOf(s) < U64_LIMIT then Some(ValueOf(s)) else None
  }

  /** Digit by digit with checked arithmetic: it accepts exactly the decimal strings whose value fits. */
  method ParseU64(s: string) returns (r: Option<nat>)
    ensures r.Some? <==> 0 < |s| <= MAX_U64_DIGITS && Decimal(s) && ValueOf(s) < U64_LIMIT
    ensures r.Some? ==> r.value == ValueOf(s)
  {
    if |s| == 0 || |s| > MAX_U64_DIGITS {
      return None;
    }
    var value := 0;
    for i := 0 to |s|
      invariant Decimal(s[..i]) && value == ValueOf(s[..i]) && value < U64_LIMIT
    {
      if !IsDigit(s[i]) {
        return None;
      }
      assert s[..i + 1][..i] == s[..i];
      if value * 10 >= U64_LIMIT || value * 10 + DigitValue(s[i]) >= U64_LIMIT {
        if Decimal(s) { ValueGrows(s, i + 1); }
        return None;
      }
      value := value * 10 + DigitValue(s[i]);
    }
    assert s[..|s|] == s;
    return Some(value);
  }

  function Digit(n: nat): char
    requires n < 10
  {
    '0' + n as char
  }

  function NatText(n: nat): (s: string)
    ensures s != "" && Decimal(s)
  {
    if n < 10 then [Digit(n)] else NatText(n / 10) + [Digit(n % 10)]
  }

  lemma {:induction false} TextHasValue(n: nat)
    ensures ValueOf(NatText(n)) == n
  {
    var s := NatText(n);
    if n >= 10 {
      TextHasValue(n / 10);
      assert s[..|s| - 1] == NatText(n / 10);
    } else {
      assert s[..0] == "";
    }
  }

  function Pow10(k: nat): nat { if k == 0 then 1 else 10 * Pow10(k - 1) }

  lemma PowOfOne()
    ensures Pow10(1) == 10
  {}

  lemma {:induction false} TextIsShort(n: nat, k: nat)
    requires k > 0 && n < Pow10(k)
    ensures |NatText(n)| <= k
    decreases k
  {
    if n >= 10 {
      PowOfOne();
      TextIsShort(n / 10, k - 1);
    }
  }

  lemma TenToTwenty()
    ensures Pow10(20) > U64_LIMIT
  {
    assert Pow10(5) == 100000;
    assert Pow10(10) == 100000 * Pow10(5) by { assert Pow10(10) == 10 * 10 * 10 * 10 * 10 * Pow10(5); }
    assert Pow10(15) == 10 * 10 * 10 * 10 * 10 * Pow10(10);
    assert Pow10(20) == 10 * 10 * 10 * 10 * 10 * Pow10(15);
  }

  lemma NumberReadsBack(n: nat)
    requires n < U64_LIMIT
    ensures Accepted(NatText(n)) == Some(n)
  {
    TextHasValue(n);
    TenToTwenty();
    TextIsShort(n, 20);
  }

  // ---- lines ----

  predicate Blank(c: char) { c == ' ' || c == '\t' || c == '\r' }

  function TrimLeft(s: string): string {
    if s != "" && Blank(s[0]) then TrimLeft(s[1..]) else s
  }

  function TrimRight(s: string): string {
    if s != "" && Blank(s[|s| - 1]) then TrimRight(s[..|s| - 1]) else s
  }

  function Trim(s: string): string { TrimRight(TrimLeft(s)) }

  /** Where a character first occurs, or the length. */
  function Find(s: string, c: char): (i: nat)
    ensures i <= |s| && (i < |s| ==> s[i] == c) && forall k :: 0 <= k < i ==> s[k] != c
  {
    if s == "" || s[0] == c then 0 else 1 + Find(s[1..], c)
  }

  function ReadBool(s: string): Option<bool> {
    if s == "true" || s == "1" then Some(true) else if s == "false" || s == "0" then Some(false) else None
  }

  function ReadRule(s: string): Option<AgreementRule> {
    if s == "unanimous" then Some(Unanimous) else if s == "majority" then Some(Majority) else None
  }

  /** A number no greater than a bound. */
  function ReadUpTo(s: string, max: nat): Option<nat> {
    var n := Accepted(s);
    if n.Some? && n.value > max then None else n
  }

  const WORD_MAX: nat := 0xFFFF_FFFF
  const LONG_MAX: nat := 0xFFFF_FFFF_FFFF_FFFF

  // ---- the keys ----

  datatype Key =
    | Generation | MinFailureConfidence | MinReplacementConfidence | EvidenceMaxAge | MinReplacementCapacity
    | RequireSubjectCapacity | RequireAdjacency | AllowDegraded | TreatDegradedAsFailed | Agreement
    | MaxAttempts | MaxCandidates | MaxRetained | RequireVerifiedEffect | FailoverEnabled

  /** Every key, in the order it is printed. */
  const KEYS: seq<Key> :=
    [Generation, MinFailureConfidence, MinReplacementConfidence, EvidenceMaxAge, MinReplacementCapacity,
     RequireSubjectCapacity, RequireAdjacency, AllowDegraded, TreatDegradedAsFailed, Agreement,
     MaxAttempts, MaxCandidates, MaxRetained, RequireVerifiedEffect, FailoverEnabled]

  function KeyName(k: Key): string {
    match k
    case Generation => "generation"
    case MinFailureConfidence => "min_failure_confidence"
    case MinReplacementConfidence => "min_replacement_confidence"
    case EvidenceMaxAge => "evidence_max_age_ticks"
    case MinReplacementCapacity => "min_replacement_capacity"
    case RequireSubjectCapacity => "require_subject_capacity"
    case RequireAdjacency => "require_adjacency_authorization"
    case AllowDegraded => "allow_degraded_replacement"
    case TreatDegradedAsFailed => "treat_degraded_as_failed"
    case Agreement => "agreement"
    case MaxAttempts => "max_attempts_per_generation"
    case MaxCandidates => "max_candidates"
    case MaxRetained => "max_retained_attempts"
    case RequireVerifiedEffect => "require_verified_effect"
    case FailoverEnabled => "failover_enabled"
  }

  /** The first key of a list under a name. */
  function KeyOf(ks: seq<Key>, name: string): Option<Key> {
    if ks == [] then None else if KeyName(ks[0]) == name then Some(ks[0]) else KeyOf(ks[1..], name)
  }

  datatype Kind = Amount(max: nat) | Switch | Choice

  function KindOf(k: Key): Kind {
    match k
    case Generation => Amount(LONG_MAX)
    case MinFailureConfidence => Amount(MAX_CONFIDENCE)
    case MinReplacementConfidence => Amount(MAX_CONFIDENCE)
    case EvidenceMaxAge => Amount(LONG_MAX)
    case MinReplacementCapacity => Amount(WORD_MAX)
    case Agreement => Choice
    case MaxAttempts => Amount(WORD_MAX)
    case MaxCandidates => Amount(WORD_MAX)
    case MaxRetained => Amount(WORD_MAX)
    case _ => Switch
  }

  datatype Value = Number(n: nat) | Truth(b: bool) | Rule(r: AgreementRule)

  /** The value is one that its kind of key takes. */
  predicate Suits(kind: Kind, v: Value) {
    match kind
    case Amount(max) => v.Number? && v.n <= max
    case Switch => v.Truth?
    case Choice => v.Rule?
  }

  function FieldOf(p: Policy, k: Key): Value {
    match k
    case Generation => Number(p.generation)
    case MinFailureConfidence => Number(p.minFailureConfidence)
    case MinReplacementConfidence => Number(p.minReplacementConfidence)
    case EvidenceMaxAge => Number(p.evidenceMaxAge)
    case MinReplacementCapacity => Number(p.minReplacementCapacity)
    case RequireSubjectCapacity => Truth(p.requireSubjectCapacity)
    case RequireAdjacency => Truth(p.requireAdjacency)
    case AllowDegraded => Truth(p.allowDegraded)
    case TreatDegradedAsFailed => Truth(p.treatDegradedAsFailed)
    case Agreement => Rule(p.agreement)
    case MaxAttempts => Number(p.maxAttempts)
    case MaxCandidates => Number(p.maxCandidates)
    case MaxRetained => Number(p.maxRetained)
    case RequireVerifiedEffect => Truth(p.requireVerifiedEffect)
    case FailoverEnabled => Truth(p.failoverEnabled)
  }

  function WithField(p: Policy, k: Key, v: Value): Policy
    requires Suits(KindOf(k), v)
  {
    match k
    case Generation => p.(generation := v.n)
    case MinFailureConfidence => p.(minFailureConfidence := v.n)
    case MinReplacementConfidence => p.(minReplacementConfidence := v.n)
    case EvidenceMaxAge => p.(evidenceMaxAge := v.n)
    case MinReplacementCapacity => p.(minReplacementCapacity := v.n)
    case RequireSubjectCapacity => p.(requireSubjectCapacity := v.b)
    case RequireAdjacency => p.(requireAdjacency := v.b)
    case AllowDegraded => p.(allowDegraded := v.b)
    case TreatDegradedAsFailed => p.(treatDegradedAsFailed := v.b)
    case Agreement => p.(agreement := v.r)
    case MaxAttempts => p.(maxAttempts := v.n)
    case MaxCandidates => p.(maxCandidates := v.n)
    case MaxRetained => p.(maxRetained := v.n)
    case RequireVerifiedEffect => p.(requireVerifiedEffect := v.b)
    case FailoverEnabled => p.(failoverEnabled := v.b)
  }

  function ReadValue(kind: Kind, s: string): (v: Option<Value>)
    ensures v.Some? ==> Suits(kind, v.value)
  {
    match kind
    case Amount(max) => var n := ReadUpTo(s, max); if n.None? then None else Some(Number(n.value))
    case Switch => var b := ReadBool(s); if b.None? then None else Some(Truth(b.value))
    case Choice => var r := ReadRule(s); if r.None? then None else Some(Rule(r.value))
  }

  /** One assignment; an unknown key or a bad value refuses the text. */
  function Assign(p: Policy, name: string, value: string): Option<Policy> {
    var k := KeyOf(KEYS, name);
    if k.None? then None
    else
      var v := ReadValue(KindOf(k.value), value);
      if v.None? then None else Some(WithField(p, k.value, v.value))
  }

  /** One line: blank lines and comments change nothing. */
  function ReadLine(p: Policy, line: string): Option<Policy> {
    var t := Trim(line);
    if t == "" || t[0] == '#' then Some(p)
    else
      var equals := Find(t, '=');
      if equals == |t| then None else Assign(p, Trim(t[..equals]), Trim(t[equals + 1..]))
  }

  /** A text, line by line; the first refused line refuses it. */
  function ReadText(p: Policy, text: string): Option<Policy>
    decreases |text|
  {
    var end := Find(text, '\n');
    var q := ReadLine(p, text[..end]);
    if q.None? || end == |text| then q else ReadText(q.value, text[end + 1..])
  }

  /** The next line break at or after a position, or the end. */
  method FindBreak(text: string, at: nat) returns (end: nat)
    requires at <= |text|
    ensures at <= end <= |text| && end - at == Find(text[at..], '\n')
  {
    end := at;
    while end < |text| && text[end] != '\n'
      invariant at <= end <= |text| && forall k :: at <= k < end ==> text[k] != '\n'
    {
      end := end + 1;
    }
    FindIs(text[at..], '\n', end - at);
  }

  /** One line off a text that is at `at`. */
  lemma ReadStep(p: Policy, text: string, at: nat, end: nat)
    requires at <= end <= |text| && end - at == Find(text[at..], '\n')
    ensures var q := ReadLine(p, text[at..end]);
            ReadText(p, text[at..]) == if q.None? || end == |text| then q else ReadText(q.value, text[end + 1..])
  {
    hide ReadLine;
    assert text[at..][..end - at] == text[at..end];
    if end < |text| { assert text[at..][end - at + 1..] == text[end + 1..]; }
  }

  /** The parsing loop; on refusal the caller's policy is left as it was. */
  method ParsePolicy(text: string, start: Policy) returns (ok: bool, out: Policy)
    ensures ok == ReadText(start, text).Some?
    ensures out == if ok then ReadText(start, text).value else start
  {
    hide ReadLine, ReadText;
    var policy := start;
    var at := 0;
    assert text[0..] == text;
    while at <= |text|
      invariant at <= |text| + 1
      invariant at <= |text| ==> ReadText(policy, text[at..]) == ReadText(start, text)
      invariant at == |text| + 1 ==> ReadText(start, text) == Some(policy)
      decreases |text| + 1 - at
    {
      var end := FindBreak(text, at);
      ReadStep(policy, text, at, end);
      var read := ReadLine(policy, text[at..end]);
      if read.None? {
        return false, start;
      }
      policy := read.value;
      at := end + 1;
    }
    return true, policy;
  }

  lemma FindIs(s: string, c: char, i: nat)
    requires i <= |s| && (i < |s| ==> s[i] == c) && forall k :: 0 <= k < i ==> s[k] != c
    ensures Find(s, c) == i
  {}

  // ---- printing ----

  function BoolText(b: bool): string { if b then "true" else "false" }

  function RuleText(r: AgreementRule): string { if r.Unanimous? then "unanimous" else "majority" }

  datatype Setting = Setting(key: string, value: string)

  function ValueText(v: Value): string {
    match v
    case Number(n) => NatText(n)
    case Truth(b) => BoolText(b)
    case Rule(r) => RuleText(r)
  }

  function SettingsOf(p: Policy, ks: seq<Key>): (ss: seq<Setting>)
    ensures |ss| == |ks|
  {
    if ks == [] then [] else [Setting(KeyName(ks[0]), ValueText(FieldOf(p, ks[0])))] + SettingsOf(p, ks[1..])
  }

  function LineOf(s: Setting): string { s.key + "=" + s.value }

  function Printed(ss: seq<Setting>): string {
    if ss == [] then "" else LineOf(ss[0]) + "\n" + Printed(ss[1..])
  }

  function ToText(p: Policy): string { Printed(SettingsOf(p, KEYS)) }

  // ---- the round trip ----

  /** Neither blank, nor a separator, anywhere. */
  predicate Plain(s: string) {
    s != "" && forall i :: 0 <= i < |s| ==> !Blank(s[i]) && s[i] != '\n' && s[i] != '=' && s[i] != '#'
  }

  lemma TrimPlain(s: string)
    requires s == "" || (!Blank(s[0]) && !Blank(s[|s| - 1]))
    ensures Trim(s) == s
  {}

  /** A printed line assigns its value to its key. */
  lemma LineReadsBack(p: Policy, s: Setting)
    requires Plain(s.key) && Plain(s.value)
    ensures ReadLine(p, LineOf(s)) == Assign(p, s.key, s.value)
  {
    hide Assign;
    var line := LineOf(s);
    assert line[0] == s.key[0] && line[|line| - 1] == s.value[|s.value| - 1];
    TrimPlain(line);
    FindIs(line, '=', |s.key|);
    assert line[..|s.key|] == s.key && line[|s.key| + 1..] == s.value;
    TrimPlain(s.key);
    TrimPlain(s.value);
  }

  /** Assignments in order. */
  function AssignAll(p: Policy, ss: seq<Setting>): Option<Policy>
    decreases |ss|
  {
    if ss == [] then Some(p)
    else
      var q := Assign(p, ss[0].key, ss[0].value);
      if q.None? then None else AssignAll(q.value, ss[1..])
  }

  lemma EmptyText(p: Policy)
    ensures ReadText(p, "") == Some(p)
  {}

  lemma FirstLine(p: Policy, line: string, rest: string)
    requires forall i :: 0 <= i < |line| ==> line[i] != '\n'
    ensures ReadText(p, line + "\n" + rest) == if ReadLine(p, line).None? then None else ReadText(ReadLine(p, line).value, rest)
  {
    hide ReadLine;
    var text := line + "\n" + rest;
    FindIs(text, '\n', |line|);
    assert text[..|line|] == line && text[|line| + 1..] == rest;
  }

  lemma {:induction false} PrintedReadsBack(p: Policy, ss: seq<Setting>)
    requires AllPlain(ss)
    ensures ReadText(p, Printed(ss)) == AssignAll(p, ss)
    decreases |ss|
  {
    hide ReadLine, ReadText, Assign, Plain;
    if ss == [] {
      EmptyText(p);
    } else {
      assert ss[0] in ss;
      NoBreaks(ss[0]);
      FirstLine(p, LineOf(ss[0]), Printed(ss[1..]));
      LineReadsBack(p, ss[0]);
      if Assign(p, ss[0].key, ss[0].value).Some? { PrintedReadsBack(Assign(p, ss[0].key, ss[0].value).value, ss[1..]); }
    }
  }

  lemma NoBreaks(s: Setting)
    requires Plain(s.key) && Plain(s.value)
    ensures forall i :: 0 <= i < |LineOf(s)| ==> LineOf(s)[i] != '\n'
  {}

  lemma {:induction false} NumbersArePlain(n: nat)
    ensures Plain(NatText(n))
  {
    var s := NatText(n);
    forall i | 0 <= i < |s| ensures !Blank(s[i]) && s[i] != '\n' && s[i] != '=' && s[i] != '#' {
      assert IsDigit(s[i]);
    }
  }

  /** What the printed form must be able to carry: every number within its key's bound. */
  ghost predicate Printable(p: Policy) { forall k :: Suits(KindOf(k), FieldOf(p, k)) }

  lemma WordsArePlain(b: bool, r: AgreementRule)
    ensures Plain(BoolText(b)) && ReadBool(BoolText(b)) == Some(b)
    ensures Plain(RuleText(r)) && ReadRule(RuleText(r)) == Some(r)
  {}

  lemma ReadsUpTo(n: nat, max: nat)
    requires n <= max <= LONG_MAX
    ensures ReadUpTo(NatText(n), max) == Some(n) && Accepted(NatText(n)) == Some(n)
  {
    NumberReadsBack(n);
  }

  lemma PlainKeys1()
    ensures Plain("generation")
    ensures Plain("min_failure_confidence")
    ensures Plain("min_replacement_confidence")
  {}

  lemma PlainKeys2()
    ensures Plain("evidence_max_age_ticks")
    ensures Plain("min_replacement_capacity")
    ensures Plain("require_subject_capacity")
  {}

  lemma PlainKeys3()
    ensures Plain("require_adjacency_authorization")
    ensures Plain("allow_degraded_replacement")
    ensures Plain("treat_degraded_as_failed")
  {}

  lemma PlainKeys4()
    ensures Plain("agreement")
    ensures Plain("max_attempts_per_generation")
    ensures Plain("max_candidates")
  {}

  lemma PlainKeys5()
    ensures Plain("max_retained_attempts")
    ensures Plain("require_verified_effect")
    ensures Plain("failover_enabled")
  {}

  predicate AllPlain(ss: seq<Setting>) { forall s :: s in ss ==> Plain(s.key) && Plain(s.value) }

  lemma KeyIsPlain(k: Key)
    ensures Plain(KeyName(k))
  {
    hide Plain;
    PlainKeys1();
    PlainKeys2();
    PlainKeys3();
    PlainKeys4();
    PlainKeys5();
  }

  lemma {:induction false} SettingsArePlain(p: Policy, ks: seq<Key>)
    ensures AllPlain(SettingsOf(p, ks))
    decreases |ks|
  {
    hide Plain, KeyName, NatText, BoolText, RuleText;
    if ks != [] {
      KeyIsPlain(ks[0]);
      var v := FieldOf(p, ks[0]);
      match v {
        case Number(n) => NumbersArePlain(n);
        case Truth(b) => WordsArePlain(b, Unanimous);
        case Rule(r) => WordsArePlain(true, r);
      }
      SettingsArePlain(p, ks[1..]);
    }
  }

  /** The length and the first letter of a key's name, which tell the names apart. */
  function Mark(k: Key): (nat, char) {
    match k
    case Generation => (10, 'g')
    case MinFailureConfidence => (22, 'm')
    case MinReplacementConfidence => (26, 'm')
    case EvidenceMaxAge => (22, 'e')
    case MinReplacementCapacity => (24, 'm')
    case RequireSubjectCapacity => (24, 'r')
    case RequireAdjacency => (31, 'r')
    case AllowDegraded => (26, 'a')
    case TreatDegradedAsFailed => (24, 't')
    case Agreement => (9, 'a')
    case MaxAttempts => (27, 'm')
    case MaxCandidates => (14, 'm')
    case MaxRetained => (21, 'm')
    case RequireVerifiedEffect => (23, 'r')
    case FailoverEnabled => (16, 'f')
  }

  lemma MarkOfName(k: Key)
    ensures |KeyName(k)| == Mark(k).0 && KeyName(k)[0] == Mark(k).1
  {}

  lemma NamesDiffer(j: Key, k: Key)
    requires KeyName(j) == KeyName(k)
    ensures j == k
  {
    hide KeyName;
    MarkOfName(j);
    MarkOfName(k);
  }

  lemma {:induction false} KeyReadsBack(ks: seq<Key>, k: Key)
    requires k in ks
    ensures KeyOf(ks, KeyName(k)) == Some(k)
    decreases |ks|
  {
    hide KeyName;
    if KeyName(ks[0]) == KeyName(k) {
      NamesDiffer(ks[0], k);
    } else {
      KeyReadsBack(ks[1..], k);
    }
  }

  lemma AllKeys(k: Key)
    ensures k in KEYS
  {
    var i := match k
      case Generation => 0
      case MinFailureConfidence => 1
      case MinReplacementConfidence => 2
      case EvidenceMaxAge => 3
      case MinReplacementCapacity => 4
      case RequireSubjectCapacity => 5
      case RequireAdjacency => 6
      case AllowDegraded => 7
      case TreatDegradedAsFailed => 8
      case Agreement => 9
      case MaxAttempts => 10
      case MaxCandidates => 11
      case MaxRetained => 12
      case RequireVerifiedEffect => 13
      case FailoverEnabled => 14;
    assert KEYS[i] == k;
  }

  lemma ValueReadsBack(kind: Kind, v: Value)
    requires Suits(kind, v) && (kind.Amount? ==> kind.max <= LONG_MAX)
    ensures ReadValue(kind, ValueText(v)) == Some(v)
  {
    hide NatText, BoolText, RuleText, ReadUpTo, ReadBool, ReadRule;
    match v
    case Number(n) => ReadsUpTo(n, kind.max);
    case Truth(b) => WordsArePlain(b, Unanimous);
    case Rule(r) => WordsArePlain(true, r);
  }

  /** A printed setting assigns its field. */
  lemma SettingReadsBack(q: Policy, p: Policy, k: Key)
    requires Printable(p)
    ensures Suits(KindOf(k), FieldOf(p, k))
    ensures Assign(q, KeyName(k), ValueText(FieldOf(p, k))) == Some(WithField(q, k, FieldOf(p, k)))
  {
    hide KeyName, ValueText, ReadValue, KeyOf, WithField, FieldOf;
    AllKeys(k);
    KeyReadsBack(KEYS, k);
    ValueReadsBack(KindOf(k), FieldOf(p, k));
  }

  /** What was assigned is read, and nothing else has changed. */
  lemma FieldsAreApart(q: Policy, j: Key, v: Value, k: Key)
    requires Suits(KindOf(j), v)
    ensures FieldOf(WithField(q, j, v), k) == if j == k then v else FieldOf(q, k)
  {}

  lemma FieldsDecide(p: Policy, q: Policy)
    requires forall k :: FieldOf(p, k) == FieldOf(q, k)
    ensures p == q
  {
    assert FieldOf(p, Generation) == FieldOf(q, Generation) && FieldOf(p, MinFailureConfidence) == FieldOf(q, MinFailureConfidence);
    assert FieldOf(p, MinReplacementConfidence) == FieldOf(q, MinReplacementConfidence) && FieldOf(p, EvidenceMaxAge) == FieldOf(q, EvidenceMaxAge);
    assert FieldOf(p, MinReplacementCapacity) == FieldOf(q, MinReplacementCapacity);
    assert FieldOf(p, RequireSubjectCapacity) == FieldOf(q, RequireSubjectCapacity) && FieldOf(p, RequireAdjacency) == FieldOf(q, RequireAdjacency);
    assert FieldOf(p, AllowDegraded) == FieldOf(q, AllowDegraded) && FieldOf(p, TreatDegradedAsFailed) == FieldOf(q, TreatDegradedAsFailed);
    assert FieldOf(p, Agreement) == FieldOf(q, Agreement) && FieldOf(p, MaxAttempts) == FieldOf(q, MaxAttempts);
    assert FieldOf(p, MaxCandidates) == FieldOf(q, MaxCandidates) && FieldOf(p, MaxRetained) == FieldOf(q, MaxRetained);
    assert FieldOf(p, RequireVerifiedEffect) == FieldOf(q, RequireVerifiedEffect) && FieldOf(p, FailoverEnabled) == FieldOf(q, FailoverEnabled);
  }

  /** The printed settings of some keys give those fields the printed policy's values and leave the others. */
  lemma {:induction false} SettingsRebuild(q: Policy, p: Policy, ks: seq<Key>)
    requires Printable(p)
    ensures AssignAll(q, SettingsOf(p, ks)).Some?
    ensures forall k :: FieldOf(AssignAll(q, SettingsOf(p, ks)).value, k) == if k in ks then FieldOf(p, k) else FieldOf(q, k)
    decreases |ks|
  {
    hide Assign, KeyName, ValueText, FieldOf, WithField, KindOf, Printable;
    if ks != [] {
      SettingReadsBack(q, p, ks[0]);
      var next := WithField(q, ks[0], FieldOf(p, ks[0]));
      assert SettingsOf(p, ks)[1..] == SettingsOf(p, ks[1..]);
      SettingsRebuild(next, p, ks[1..]);
      forall k ensures FieldOf(next, k) == if k == ks[0] then FieldOf(p, k) else FieldOf(q, k) {
        FieldsAreApart(q, ks[0], FieldOf(p, ks[0]), k);
      }
      assert ks == [ks[0]] + ks[1..];
    }
  }

  /** Round trip: parsing a policy's printed text over any policy yields exactly that policy. */
  lemma TextReadsBack(p: Policy, start: Policy)
    requires Printable(p)
    ensures ReadText(start, ToText(p)) == Some(p)
  {
    hide ReadText, SettingsOf, Assign, AssignAll, Printed, Plain, FieldOf, Printable;
    var ss := SettingsOf(p, KEYS);
    SettingsArePlain(p, KEYS);
    PrintedReadsBack(start, ss);
    SettingsRebuild(start, p, KEYS);
    forall k ensures k in KEYS { AllKeys(k); }
    FieldsDecide(AssignAll(start, ss).value, p);
  }

  // ---- what each line does ----

  /** A decimal number of at most 20 digits, no greater than `max`. */
  predicate NumberUpTo(s: string, max: nat)
    ensures NumberUpTo(s, max) ==> Decimal(s)
  {
    0 < |s| <= 20 && Decimal(s) && ValueOf(s) <= max
  }

  predicate Yes(s: string) { s == "true" || s == "1" }

  predicate No(s: string) { s == "false" || s == "0" }

  /** A line assigns to the key that its name names. */
  lemma LineAssigns(p: Policy, k: Key, text: string)
    requires Plain(text)
    ensures var v := ReadValue(KindOf(k), text);
            ReadLine(p, KeyName(k) + "=" + text) == if v.None? then None else Some(WithField(p, k, v.value))
  {
    hide KeyName, ReadValue, WithField, Plain, ReadLine, KindOf;
    KeyIsPlain(k);
    LineReadsBack(p, Setting(KeyName(k), text));
    AllKeys(k);
    KeyReadsBack(KEYS, k);
  }

  lemma NumberReads(text: string, max: nat)
    requires max < U64_LIMIT
    ensures ReadValue(Amount(max), text) == if NumberUpTo(text, max) then Some(Number(ValueOf(text))) else None
  {}

  lemma SwitchReads(text: string)
    ensures ReadValue(Switch, text) == if Yes(text) then Some(Truth(true)) else if No(text) then Some(Truth(false)) else None
  {}

  /** The generation and the confidences asked for. */
  lemma ConfidenceLines(p: Policy, text: string)
    requires Plain(text)
    ensures ReadLine(p, "generation=" + text) == if NumberUpTo(text, 0xFFFF_FFFF_FFFF_FFFF) then Some(p.(generation := ValueOf(text))) else None
    ensures ReadLine(p, "min_failure_confidence=" + text) == if NumberUpTo(text, 1000) then Some(p.(minFailureConfidence := ValueOf(text))) else None
    ensures ReadLine(p, "min_replacement_confidence=" + text) == if NumberUpTo(text, 1000) then Some(p.(minReplacementConfidence := ValueOf(text))) else None
  {
    hide ReadLine, ReadValue, Plain, NumberUpTo, Yes, No, ValueOf;
    assert KeyName(Generation) + "=" == "generation=";
    LineAssigns(p, Generation, text);
    NumberReads(text, 0xFFFF_FFFF_FFFF_FFFF);
    assert KeyName(MinFailureConfidence) + "=" == "min_failure_confidence=";
    LineAssigns(p, MinFailureConfidence, text);
    NumberReads(text, 1000);
    assert KeyName(MinReplacementConfidence) + "=" == "min_replacement_confidence=";
    LineAssigns(p, MinReplacementConfidence, text);
    NumberReads(text, 1000);
  }

  /** The window of evidence, and the capacity asked of a replacement. */
  lemma WindowLines(p: Policy, text: string)
    requires Plain(text)
    ensures ReadLine(p, "evidence_max_age_ticks=" + text) == if NumberUpTo(text, 0xFFFF_FFFF_FFFF_FFFF) then Some(p.(evidenceMaxAge := ValueOf(text))) else None
    ensures ReadLine(p, "min_replacement_capacity=" + text) == if NumberUpTo(text, 0xFFFF_FFFF) then Some(p.(minReplacementCapacity := ValueOf(text))) else None
  {
    hide ReadLine, ReadValue, Plain, NumberUpTo, Yes, No, ValueOf;
    assert KeyName(EvidenceMaxAge) + "=" == "evidence_max_age_ticks=";
    LineAssigns(p, EvidenceMaxAge, text);
    NumberReads(text, 0xFFFF_FFFF_FFFF_FFFF);
    assert KeyName(MinReplacementCapacity) + "=" == "min_replacement_capacity=";
    LineAssigns(p, MinReplacementCapacity, text);
    NumberReads(text, 0xFFFF_FFFF);
  }

  /** How many attempts a link generation gets, how many candidates a request names, how many attempts are kept. */
  lemma BoundLines(p: Policy, text: string)
    requires Plain(text)
    ensures ReadLine(p, "max_attempts_per_generation=" + text) == if NumberUpTo(text, 0xFFFF_FFFF) then Some(p.(maxAttempts := ValueOf(text))) else None
    ensures ReadLine(p, "max_candidates=" + text) == if NumberUpTo(text, 0xFFFF_FFFF) then Some(p.(maxCandidates := ValueOf(text))) else None
    ensures ReadLine(p, "max_retained_attempts=" + text) == if NumberUpTo(text, 0xFFFF_FFFF) then Some(p.(maxRetained := ValueOf(text))) else None
  {
    hide ReadLine, ReadValue, Plain, NumberUpTo, Yes, No, ValueOf;
    assert KeyName(MaxAttempts) + "=" == "max_attempts_per_generation=";
    LineAssigns(p, MaxAttempts, text);
    NumberReads(text, 0xFFFF_FFFF);
    assert KeyName(MaxCandidates) + "=" == "max_candidates=";
    LineAssigns(p, MaxCandidates, text);
    NumberReads(text, 0xFFFF_FFFF);
    assert KeyName(MaxRetained) + "=" == "max_retained_attempts=";
    LineAssigns(p, MaxRetained, text);
    NumberReads(text, 0xFFFF_FFFF);
  }

  /** What is required of a replacement. */
  lemma RequirementLines(p: Policy, text: string)
    requires Plain(text)
    ensures ReadLine(p, "require_subject_capacity=" + text)
         == if Yes(text) then Some(p.(requireSubjectCapacity := true)) else if No(text) then Some(p.(requireSubjectCapacity := false)) else None
    ensures ReadLine(p, "require_adjacency_authorization=" + text)
         == if Yes(text) then Some(p.(requireAdjacency := true)) else if No(text) then Some(p.(requireAdjacency := false)) else None
    ensures ReadLine(p, "allow_degraded_replacement=" + text)
         == if Yes(text) then Some(p.(allowDegraded := true)) else if No(text) then Some(p.(allowDegraded := false)) else None
  {
    hide ReadLine, ReadValue, Plain, NumberUpTo, Yes, No, ValueOf;
    SwitchReads(text);
    assert KeyName(RequireSubjectCapacity) + "=" == "require_subject_capacity=";
    LineAssigns(p, RequireSubjectCapacity, text);
    assert KeyName(RequireAdjacency) + "=" == "require_adjacency_authorization=";
    LineAssigns(p, RequireAdjacency, text);
    assert KeyName(AllowDegraded) + "=" == "allow_degraded_replacement=";
    LineAssigns(p, AllowDegraded, text);
  }

  /** What counts as failed, whether an effect must be verified, and the switch for failover itself. */
  lemma ConductLines(p: Policy, text: string)
    requires Plain(text)
    ensures ReadLine(p, "treat_degraded_as_failed=" + text)
         == if Yes(text) then Some(p.(treatDegradedAsFailed := true)) else if No(text) then Some(p.(treatDegradedAsFailed := false)) else None
    ensures ReadLine(p, "require_verified_effect=" + text)
         == if Yes(text) then Some(p.(requireVerifiedEffect := true)) else if No(text) then Some(p.(requireVerifiedEffect := false)) else None
    ensures ReadLine(p, "failover_enabled=" + text)
         == if Yes(text) then Some(p.(failoverEnabled := true)) else if No(text) then Some(p.(failoverEnabled := false)) else None
  {
    hide ReadLine, ReadValue, Plain, NumberUpTo, Yes, No, ValueOf;
    SwitchReads(text);
    assert KeyName(TreatDegradedAsFailed) + "=" == "treat_degraded_as_failed=";
    LineAssigns(p, TreatDegradedAsFailed, text);
    assert KeyName(RequireVerifiedEffect) + "=" == "require_verified_effect=";
    LineAssigns(p, RequireVerifiedEffect, text);
    assert KeyName(FailoverEnabled) + "=" == "failover_enabled=";
    LineAssigns(p, FailoverEnabled, text);
  }

  /** The agreement rule. */
  lemma RuleLine(p: Policy, text: string)
    requires Plain(text)
    ensures ReadLine(p, "agreement=" + text)
         == if text == "unanimous" then Some(p.(agreement := Unanimous)) else if text == "majority" then Some(p.(agreement := Majority)) else None
  {
    hide ReadLine, ReadValue, Plain, NumberUpTo, Yes, No, ValueOf;
    assert KeyName(Agreement) + "=" == "agreement=";
    LineAssigns(p, Agreement, text);
    RuleReads(text);
  }

  lemma RuleReads(text: string)
    ensures ReadValue(Choice, text) == if text == "unanimous" then Some(Rule(Unanimous)) else if text == "majority" then Some(Rule(Majority)) else None
  {}

  /** The names a line may assign to. */
  const NAMES: set<string> :=
    {"generation", "min_failure_confidence", "min_replacement_confidence", "evidence_max_age_ticks", "min_replacement_capacity",
     "require_subject_capacity", "require_adjacency_authorization", "allow_degraded_replacement", "treat_degraded_as_failed", "agreement",
     "max_attempts_per_generation", "max_candidates", "max_retained_attempts", "require_verified_effect", "failover_enabled"}

  /** Any other name refuses the text, whatever its value. */
  lemma OtherNamesAreRefused(p: Policy, name: string, text: string)
    requires Plain(name) && Plain(text) && name !in NAMES
    ensures ReadLine(p, name + "=" + text) == None
  {
    hide ReadLine, Plain, KeyName;
    LineReadsBack(p, Setting(name, text));
    forall k ensures KeyName(k) != name { NameIsListed(k); }
    NoKeyUnder(KEYS, name);
  }

  lemma NameIsListed(k: Key)
    ensures KeyName(k) in NAMES
  {}

  lemma {:induction false} NoKeyUnder(ks: seq<Key>, name: string)
    requires forall k :: KeyName(k) != name
    ensures KeyOf(ks, name) == None
    decreases |ks|
  {
    hide KeyName;
    if ks != [] { NoKeyUnder(ks[1..], name); }
  }

  // ---- what is passed over ----

  /** Spaces, tabs and carriage returns, or nothing. */
  predicate Margin(s: string) { forall i :: 0 <= i < |s| ==> s[i] == ' ' || s[i] == '\t' || s[i] == '\r' }

  lemma {:induction false} TrimLeftMargin(a: string, s: string)
    requires Margin(a)
    ensures TrimLeft(a + s) == TrimLeft(s)
    decreases |a|
  {
    if a == "" {
      assert a + s == s;
    } else {
      assert (a + s)[1..] == a[1..] + s;
      TrimLeftMargin(a[1..], s);
    }
  }

  lemma {:induction false} TrimRightMargin(s: string, b: string)
    requires Margin(b)
    ensures TrimRight(s + b) == TrimRight(s)
    decreases |b|
  {
    if b == "" {
      assert s + b == s;
    } else {
      assert (s + b)[..|s + b| - 1] == s + b[..|b| - 1];
      TrimRightMargin(s, b[..|b| - 1]);
    }
  }

  /** A text between margins is trimmed to itself. */
  lemma TrimMargins(a: string, s: string, b: string)
    requires Margin(a) && Margin(b) && (s == "" || (!Blank(s[0]) && !Blank(s[|s| - 1])))
    ensures Trim(a + s + b) == s
  {
    assert a + s + b == a + (s + b);
    TrimLeftMargin(a, s + b);
    if s == "" {
      assert s + b == b + "";
      TrimLeftMargin(b, "");
      assert b + "" == b;
    } else {
      assert (s + b)[0] == s[0];
      TrimRightMargin(s, b);
    }
    TrimPlain(s);
  }

  /** A line of blanks, and a comment wherever it starts, change nothing. */
  lemma BlanksAndComments(p: Policy, a: string, text: string)
    requires Margin(a)
    ensures ReadLine(p, a) == Some(p)
    ensures ReadLine(p, a + "#" + text) == Some(p)
  {
    TrimMargins(a, "", "");
    assert a + "" + "" == a;
    assert a + "#" + text == a + ("#" + text);
    TrimLeftMargin(a, "#" + text);
    CommentStays("#" + text);
  }

  lemma {:induction false} CommentStays(s: string)
    requires s != "" && s[0] == '#'
    ensures TrimRight(s) != "" && TrimRight(s)[0] == '#'
    decreases |s|
  {
    if Blank(s[|s| - 1]) { CommentStays(s[..|s| - 1]); }
  }

  /** Blanks around a line, and around its equals sign, make no difference. */
  lemma MarginsMakeNoDifference(p: Policy, a: string, key: string, b: string, c: string, value: string, d: string)
    requires Margin(a) && Margin(b) && Margin(c) && Margin(d) && Plain(key) && Plain(value)
    ensures ReadLine(p, a + key + b + "=" + c + value + d) == ReadLine(p, key + "=" + value)
  {
    hide Assign, Trim, Find, Plain, Margin, Blank;
    var core := key + b + "=" + c + value;
    assert a + key + b + "=" + c + value + d == a + core + d;
    Core(key, b, c, value);
    TrimMargins(a, core, d);
    assert key + b == "" + key + b && c + value == c + value + "";
    NoMargin();
    PlainEnds(key);
    PlainEnds(value);
    TrimMargins("", key, b);
    TrimMargins(c, value, "");
    LineReadsBack(p, Setting(key, value));
  }

  lemma NoMargin()
    ensures Margin("")
  {}

  lemma PlainEnds(s: string)
    requires Plain(s)
    ensures s != "" && !Blank(s[0]) && !Blank(s[|s| - 1])
  {}

  lemma Core(key: string, b: string, c: string, value: string)
    requires Margin(b) && Margin(c) && Plain(key) && Plain(value)
    ensures var core := key + b + "=" + c + value;
            && core != "" && !Blank(core[0]) && !Blank(core[|core| - 1]) && core[0] != '#'
            && Find(core, '=') == |key + b| < |core| && core[..|key + b|] == key + b && core[|key + b| + 1..] == c + value
  {
    var core := key + b + "=" + c + value;
    assert core[0] == key[0] && core[|core| - 1] == value[|value| - 1];
    FindIs(core, '=', |key + b|);
  }
}
