/** The durable lineage: what a record does to the live state, what replay makes of it, and the medium under both. */
module Lineage {
  import opened Basics
  import opened Reasons
  import opened Records
  import opened Sorting

  datatype DurableState = DurableState(
    fabric: Name,
    policy: Policy,
    topology: Topology,
    epoch: nat,
    coordinator: Incarnation,
    lastSeq: nat,
    bootCount: nat,
    recordCount: nat,
    epochAdvances: nat,
    attempts: seq<AttemptRecord>,
    fences: seq<FenceRecord>,
    idempotency: seq<IdempotencyEntry>)

  /**
   * How an attempt is put. An Interruption is written as an Update; it differs only in the live
   * state, where the restart fence does not run the retention pass.
   */
  datatype PutKind = Create | Update | Interruption | Completion | Rollback

  datatype Record =
    | Boot(epoch: nat, coordinator: Incarnation, bootCount: nat, epochAdvances: nat)
    | PolicyCommit(policy: Policy)
    | TopologyCommit(topology: Topology)
    | AttemptPut(kind: PutKind, attempt: AttemptRecord)
    | FencePut(fence: FenceRecord)
    | DecisionCommit(decision: Decision)
    | IdempotencyIndex(entry: IdempotencyEntry)
    | CheckpointMark(covers: nat, recordCount: nat)
    | ShutdownMark(epoch: nat, coordinator: Incarnation, lastSeq: nat)

  datatype Limits = Limits(maxAttempts: nat, maxFences: nat, maxIdempotency: nat)

  // ---- the attempt table ----

  /** The place of an attempt in the table, or the table's length. */
  function IndexOf(a: seq<AttemptRecord>, subject: LinkKey, seqno: nat): (i: nat)
    ensures i <= |a|
    ensures i < |a| ==> a[i].subject == subject && a[i].seqno == seqno
    ensures forall j :: 0 <= j < i ==> a[j].subject != subject || a[j].seqno != seqno
  {
    if a == [] then 0
    else if a[0].subject == subject && a[0].seqno == seqno then 0
    else 1 + IndexOf(a[1..], subject, seqno)
  }

  function Upsert(a: seq<AttemptRecord>, r: AttemptRecord): (b: seq<AttemptRecord>)
    ensures |a| <= |b| <= |a| + 1
  {
    var i := IndexOf(a, r.subject, r.seqno);
    if i < |a| then a[i := r] else a + [r]
  }

  /** The table's record of an attempt. */
  function Lookup(a: seq<AttemptRecord>, subject: LinkKey, seqno: nat): Option<AttemptRecord> {
    var i := IndexOf(a, subject, seqno);
    if i < |a| then Some(a[i]) else None
  }

  predicate OfPair(r: AttemptRecord, subject: LinkKey, generation: nat) {
    r.subject == subject && r.generation == generation
  }

  function CountOf(a: seq<AttemptRecord>, subject: LinkKey, generation: nat): (n: nat)
    ensures n <= |a|
  {
    if a == [] then 0
    else CountOf(a[..|a| - 1], subject, generation) + (if OfPair(a[|a| - 1], subject, generation) then 1 else 0)
  }

  predicate Active(d: DurableState, r: AttemptRecord) {
    HoldsAuthority(r.phase) && r.authority.epoch == d.epoch && r.authority.coordinator == d.coordinator
  }

  /** Of the records that qualify, the first among those with the highest sequence. */
  function Highest(a: seq<AttemptRecord>, fits: AttemptRecord -> bool): (r: Option<AttemptRecord>)
    ensures r.None? <==> forall x :: x in a ==> !fits(x)
    ensures r.Some? ==> r.value in a && fits(r.value) && forall x :: x in a && fits(x) ==> x.seqno <= r.value.seqno
  {
    if a == [] then None
    else
      var last := a[|a| - 1];
      assert a == a[..|a| - 1] + [last];
      var best := Highest(a[..|a| - 1], fits);
      if fits(last) && (best.None? || best.value.seqno < last.seqno) then Some(last) else best
  }

  function OfThisPair(subject: LinkKey, generation: nat): (fits: AttemptRecord -> bool)
    ensures forall r :: fits(r) == OfPair(r, subject, generation)
  {
    r => OfPair(r, subject, generation)
  }

  function ActiveOfThisPair(d: DurableState, subject: LinkKey, generation: nat): (fits: AttemptRecord -> bool)
    ensures forall r :: fits(r) == (OfPair(r, subject, generation) && Active(d, r))
  {
    r => OfPair(r, subject, generation) && Active(d, r)
  }

  function Latest(a: seq<AttemptRecord>, subject: LinkKey, generation: nat): Option<AttemptRecord> {
    Highest(a, OfThisPair(subject, generation))
  }

  function ActiveAuthority(d: DurableState, subject: LinkKey, generation: nat): Option<AttemptRecord> {
    Highest(d.attempts, ActiveOfThisPair(d, subject, generation))
  }

  function FindEntry(index: seq<IdempotencyEntry>, key: Digest): (r: Option<IdempotencyEntry>)
    ensures r.Some? ==> key != ZERO_DIGEST && r.value in index && r.value.key == key
    ensures r.None? <==> key == ZERO_DIGEST || forall e :: e in index ==> e.key != key
  {
    if key == ZERO_DIGEST || index == [] then None
    else if index[0].key == key then Some(index[0])
    else FindEntry(index[1..], key)
  }

  // ---- retention ----

  function FirstTerminal(a: seq<AttemptRecord>): (i: nat)
    ensures i <= |a|
  {
    if a == [] || Terminal(a[0].phase) then 0 else 1 + FirstTerminal(a[1..])
  }

  function DropTerminal(a: seq<AttemptRecord>, max: nat): seq<AttemptRecord>
    decreases |a|
  {
    var i := FirstTerminal(a);
    if |a| <= max || i == |a| then a else DropTerminal(a[..i] + a[i + 1..], max)
  }

  function RetainAttempts(a: seq<AttemptRecord>, max: nat): seq<AttemptRecord> {
    if |a| <= max then a else DropTerminal(Sort(a, AttemptLess), max)
  }

  predicate FenceLess(a: FenceRecord, b: FenceRecord) { a.seqno < b.seqno }

  function RetainFences(f: seq<FenceRecord>, max: nat): seq<FenceRecord> {
    if |f| <= max then f else Sort(f, FenceLess)[|f| - max..]
  }

  function RetainEntries(e: seq<IdempotencyEntry>, max: nat): seq<IdempotencyEntry> {
    if |e| <= max then e else e[|e| - max..]
  }

  // ---- a record's effect ----

  /** What a committed record does to the live state, besides taking its place in the lineage. */
  function Effect(d: DurableState, rec: Record, seqno: nat, limits: Limits): DurableState {
    match rec
    case Boot(epoch, coordinator, boots, advances) =>
      d.(epoch := epoch, coordinator := coordinator, bootCount := boots, epochAdvances := advances)
    case PolicyCommit(policy) => d.(policy := policy)
    case TopologyCommit(topology) => d.(topology := topology)
    case AttemptPut(kind, attempt) =>
      var stored := if kind.Create? then attempt.(createSeq := seqno, updateSeq := seqno) else attempt.(updateSeq := seqno);
      var table := Upsert(d.attempts, stored);
      d.(attempts := if kind.Interruption? then table else RetainAttempts(table, limits.maxAttempts))
    case FencePut(fence) => d.(fences := RetainFences(d.fences + [fence.(seqno := seqno)], limits.maxFences))
    case IdempotencyIndex(entry) => d.(idempotency := RetainEntries(d.idempotency + [entry], limits.maxIdempotency))
    case DecisionCommit(_) => d
    case CheckpointMark(_, _) => d
    case ShutdownMark(_, _, _) => d
  }

  function After(d: DurableState, rec: Record, limits: Limits): DurableState {
    Effect(d, rec, d.lastSeq + 1, limits).(lastSeq := d.lastSeq + 1, recordCount := d.recordCount + 1)
  }

  predicate PutAllowed(kind: PutKind, phase: Phase) {
    match kind
    case Create => phase.Evaluated? || phase.Refused? || phase.Indeterminate?
    case Completion => phase.Committed?
    case Rollback => phase.RolledBack?
    case _ => true
  }

  /** What replay makes of a record at its position; None is a Corrupt refusal. */
  function Replayed(d: DurableState, rec: Record, seqno: nat, limits: Limits): Option<DurableState> {
    match rec
    case Boot(epoch, coordinator, boots, advances) =>
      Some(d.(epoch := epoch, coordinator := coordinator, bootCount := boots, epochAdvances := advances))
    case PolicyCommit(policy) => Some(d.(policy := policy))
    case TopologyCommit(topology) => Some(d.(topology := topology))
    case AttemptPut(kind, attempt) =>
      if !PutAllowed(kind, attempt.phase) || attempt.createSeq > seqno then None
      else Some(d.(attempts := RetainAttempts(Upsert(d.attempts, attempt), limits.maxAttempts)))
    case FencePut(fence) =>
      if fence.seqno != seqno then None
      else Some(d.(fences := RetainFences(d.fences + [fence], limits.maxFences)))
    case IdempotencyIndex(entry) => Some(d.(idempotency := RetainEntries(d.idempotency + [entry], limits.maxIdempotency)))
    case DecisionCommit(_) => Some(d)
    case CheckpointMark(_, _) => Some(d)
    case ShutdownMark(_, _, _) => Some(d)
  }

  // ---- the medium ----

  datatype Entry = Entry(seqno: nat, record: Record)

  datatype Journal = Journal(base: nat, entries: seq<Entry>)

  datatype Medium = Medium(snapshot: Option<DurableState>, journal: Option<Journal>)

  const EMPTY_MEDIUM := Medium(None, None)

  /** How far a checkpoint gets before the medium, or the process, gives out. */
  datatype SnapshotFate = Kept | SnapshotLost | RotationLost | ReopenLost

  /**
   * What the medium will do with the writes to come: `room` appends succeed, the next one fails,
   * leaving its record whole on the medium exactly when `lands`. Since the first failure is final,
   * this covers every failure pattern and every crash between two steps of a call.
   */
  datatype Fate = Fate(room: nat, lands: bool, snapshot: SnapshotFate, creates: bool)

  /** The last sequence that a run of entries reaches. */
  function LastOf(base: nat, entries: seq<Entry>): nat {
    if entries == [] then base else entries[|entries| - 1].seqno
  }

  /** Folds the entries above the watermark; a sequence that does not advance is Corrupt. */
  function Replay(start: DurableState, covered: nat, base: nat, entries: seq<Entry>, limits: Limits): Option<DurableState>
    decreases |entries|
  {
    if entries == [] then Some(start)
    else
      var n := |entries| - 1;
      var e := entries[n];
      var before := Replay(start, covered, base, entries[..n], limits);
      if before.None? || e.seqno <= LastOf(base, entries[..n]) then None
      else if e.seqno <= covered then before
      else Replayed(before.value, e.record, e.seqno, limits)
  }

  // ---- the store ----

  /**
   * The store: `d` is the live state, `disk` the state that the records on the medium amount to.
   * The two differ only when a failed append left its record on the medium.
   */
  datatype StoreState = StoreState(
    d: DurableState,
    disk: DurableState,
    medium: Medium,
    failed: bool,
    sinceSnapshot: nat,
    limits: Limits,
    fate: Fate)

  function WithEntry(m: Medium, e: Entry): Medium {
    match m.journal
    case None => m
    case Some(j) => m.(journal := Some(j.(entries := j.entries + [e])))
  }

  /** One write-ahead commit. The commit succeeded exactly when the result has not failed. */
  function Commit(s: StoreState, rec: Record): StoreState {
    if s.failed then s
    else if s.d.lastSeq + 1 >= U64_LIMIT then s.(failed := true)
    else
      var landed := WithEntry(s.medium, Entry(s.d.lastSeq + 1, rec));
      var next := After(s.d, rec, s.limits);
      if s.fate.room == 0 then
        if s.fate.lands then s.(failed := true, medium := landed, disk := next) else s.(failed := true)
      else
        s.(d := next, disk := next, medium := landed, sinceSnapshot := s.sinceSnapshot + 1, fate := s.fate.(room := s.fate.room - 1))
  }

  /** Compaction: snapshot, rotation, and a mark in the fresh journal. */
  function Checkpoint(s: StoreState): (StoreState, bool) {
    if s.failed then (s, false)
    else match s.fate.snapshot
      case SnapshotLost => (s, false)
      case RotationLost => (s.(medium := s.medium.(snapshot := Some(s.d)), failed := true), false)
      case ReopenLost => (s.(medium := Medium(Some(s.d), Some(Journal(s.d.lastSeq, []))), failed := true), false)
      case Kept =>
        var rotated := s.(medium := Medium(Some(s.d), Some(Journal(s.d.lastSeq, []))), sinceSnapshot := 0);
        var marked := Commit(rotated, CheckpointMark(s.d.lastSeq, s.d.recordCount));
        (marked, !marked.failed)
  }

  datatype StoreOptions = StoreOptions(fabric: Name, policy: Policy, topology: Topology, limits: Limits)

  function Blank(o: StoreOptions): DurableState {
    DurableState(o.fabric, o.policy, o.topology, 0, ZERO_INCARNATION, 0, 0, 0, 0, [], [], [])
  }

  function Start(m: Medium, o: StoreOptions): DurableState {
    if m.snapshot.Some? then m.snapshot.value else Blank(o)
  }

  datatype Restored = Restored(state: DurableState) | Barred(outcome: Outcome, code: nat)

  function Max(a: nat, b: nat): nat { if a < b then b else a }

  /** The snapshot, if there is one, must be this fabric's and hold valid definitions. */
  function StartFault(m: Medium, o: StoreOptions): Option<(Outcome, nat)> {
    if m.snapshot.None? then None
    else
      var d := m.snapshot.value;
      if d.fabric != o.fabric then Some((Outcome.Conflict, UNKNOWN_FABRIC))
      else if !ValidPolicy(d.policy) then Some((Outcome.Invalid, POLICY_REJECTED))
      else TopologyFault(d.topology)
  }

  /** The state that the medium restores, before the journal is opened for writing. */
  function Restore(m: Medium, o: StoreOptions): Restored {
    var fault := StartFault(m, o);
    if fault.Some? then Barred(fault.value.0, fault.value.1)
    else
      var start := Start(m, o);
      match m.journal
      case None => Restored(start)
      case Some(j) =>
        var folded := Replay(start, start.lastSeq, j.base, j.entries, o.limits);
        if folded.None? then Barred(Outcome.Corrupt, CORRUPT_RECORD)
        else Restored(folded.value.(lastSeq := Max(LastOf(j.base, j.entries), start.lastSeq)))
  }

  /** Opening the store: restore, then open the journal for writing under the base the snapshot demands. */
  function OpenStore(m: Medium, o: StoreOptions, fate: Fate): (Restored, Medium) {
    var restored := Restore(m, o);
    if restored.Barred? then (restored, m)
    else
      var start := Start(m, o);
      match m.journal
      case None =>
        if fate.creates then (restored, m.(journal := Some(Journal(start.lastSeq, []))))
        else (Barred(Outcome.IoError, INTERNAL_ERROR), m)
      case Some(j) =>
        if j.base < start.lastSeq then (Barred(Outcome.Conflict, SEQUENCE_REGRESSION), m)
        else (restored, m)
  }
}
