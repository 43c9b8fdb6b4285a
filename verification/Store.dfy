/** The lineage store as the source builds it: an object whose tables are updated in place. */
module Store {
  import opened Basics
  import opened Reasons
  import opened Records
  import opened Sorting
  import opened Lineage
  import Protocol

  lemma HighestStep(a: seq<AttemptRecord>, i: nat, fits: AttemptRecord -> bool)
    requires i < |a|
    ensures Highest(a[..i + 1], fits)
         == var best := Highest(a[..i], fits);
            if fits(a[i]) && (best.None? || best.value.seqno < a[i].seqno) then Some(a[i]) else best
  {
    assert a[..i + 1][..i] == a[..i];
  }

  lemma CountStep(a: seq<AttemptRecord>, i: nat, subject: LinkKey, generation: nat)
    requires i < |a|
    ensures CountOf(a[..i + 1], subject, generation) == CountOf(a[..i], subject, generation) + (if OfPair(a[i], subject, generation) then 1 else 0)
  {
    assert a[..i + 1][..i] == a[..i];
  }

  lemma IndexFrom(a: seq<AttemptRecord>, i: nat, subject: LinkKey, seqno: nat)
    requires i <= |a| && forall j :: 0 <= j < i ==> a[j].subject != subject || a[j].seqno != seqno
    ensures i < |a| && a[i].subject == subject && a[i].seqno == seqno ==> IndexOf(a, subject, seqno) == i
    ensures i == |a| ==> IndexOf(a, subject, seqno) == i
  {}

  lemma FirstTerminalIs(a: seq<AttemptRecord>, i: nat)
    requires i <= |a| && forall j :: 0 <= j < i ==> !Terminal(a[j].phase)
    ensures (i == |a| || Terminal(a[i].phase)) ==> FirstTerminal(a) == i
    decreases |a|
  {
    if a != [] && i > 0 { FirstTerminalIs(a[1..], i - 1); }
  }

  method ReplayJournal(start: DurableState, covered: nat, base: nat, entries: seq<Entry>, limits: Limits) returns (r: Option<DurableState>)
    ensures r == Replay(start, covered, base, entries, limits)
  {
    hide Replayed;
    var state := start;
    var last := base;
    ReplayNothing(start, covered, base, limits);
    assert entries[..0] == [];
    for i := 0 to |entries|
      invariant last == LastOf(base, entries[..i])
      invariant Replay(start, covered, base, entries[..i], limits) == Some(state)
    {
      var e := entries[i];
      ReplayStep(start, covered, base, entries, i, limits);
      if e.seqno <= last {
        ReplayRefused(start, covered, base, entries, i + 1, limits);
        return None;
      }
      if e.seqno > covered {
        var applied := Replayed(state, e.record, e.seqno, limits);
        if applied.None? {
          ReplayRefused(start, covered, base, entries, i + 1, limits);
          return None;
        }
        state := applied.value;
      }
      last := e.seqno;
    }
    assert entries[..|entries|] == entries;
    return Some(state);
  }

  lemma ReplayNothing(start: DurableState, covered: nat, base: nat, limits: Limits)
    ensures Replay(start, covered, base, [], limits) == Some(start)
  {}

  lemma ReplayStep(start: DurableState, covered: nat, base: nat, entries: seq<Entry>, i: nat, limits: Limits)
    requires i < |entries|
    ensures var before := Replay(start, covered, base, entries[..i], limits);
            var e := entries[i];
            Replay(start, covered, base, entries[..i + 1], limits)
            == if before.None? || e.seqno <= LastOf(base, entries[..i]) then None
               else if e.seqno <= covered then before
               else Replayed(before.value, e.record, e.seqno, limits)
  {
    hide Replayed;
    assert entries[..i + 1][..i] == entries[..i];
  }

  /** A refused prefix refuses the whole. */
  lemma {:induction false} ReplayRefused(start: DurableState, covered: nat, base: nat, entries: seq<Entry>, k: nat, limits: Limits)
    requires k <= |entries| && Replay(start, covered, base, entries[..k], limits).None?
    ensures Replay(start, covered, base, entries, limits).None?
    decreases |entries|
  {
    hide Replayed;
    if k == |entries| {
      assert entries[..k] == entries;
    } else {
      var n := |entries| - 1;
      assert entries[..n][..k] == entries[..k];
      ReplayRefused(start, covered, base, entries[..n], k, limits);
    }
  }

  class LineageStore {
    const limits: Limits
    var state: DurableState
    var medium: Medium
    var failed: bool
    var recordsSinceSnapshot: nat

    /** What the medium will do with the writes to come. */
    var fate: Fate

    /** What the records on the medium amount to; only proofs look at it. */
    ghost var described: DurableState

    ghost function View(): StoreState
      reads this
    {
      StoreState(state, described, medium, failed, recordsSinceSnapshot, limits, fate)
    }

    constructor (s: DurableState, m: Medium, l: Limits, f: Fate)
      ensures View() == StoreState(s, s, m, false, 0, l, f)
    {
      limits, state, medium, failed, recordsSinceSnapshot, fate, described := l, s, m, false, 0, f, s;
    }

    // ---- inspection ----

    method FindAttempt(subject: LinkKey, seqno: nat) returns (r: Option<AttemptRecord>)
      ensures r == Lookup(state.attempts, subject, seqno)
    {
      var a := state.attempts;
      for i := 0 to |a|
        invariant forall j :: 0 <= j < i ==> a[j].subject != subject || a[j].seqno != seqno
      {
        if a[i].subject == subject && a[i].seqno == seqno {
          IndexFrom(a, i, subject, seqno);
          return Some(a[i]);
        }
      }
      IndexFrom(a, |a|, subject, seqno);
      return None;
    }

    method CountAttempts(subject: LinkKey, generation: nat) returns (count: nat)
      ensures count == CountOf(state.attempts, subject, generation)
    {
      hide CountOf;
      var a := state.attempts;
      count := 0;
      assert CountOf(a[..0], subject, generation) == 0 by { CountNone(a, subject, generation); }
      for i := 0 to |a|
        invariant count == CountOf(a[..i], subject, generation)
      {
        CountStep(a, i, subject, generation);
        if a[i].subject == subject && a[i].generation == generation {
          count := count + 1;
        }
      }
      assert a[..|a|] == a;
    }

    method LatestAttempt(subject: LinkKey, generation: nat) returns (found: Option<AttemptRecord>)
      ensures found == Latest(state.attempts, subject, generation)
    {
      hide Highest;
      var a := state.attempts;
      ghost var fits := OfThisPair(subject, generation);
      found := None;
      HighestNone(a, fits);
      for i := 0 to |a|
        invariant found == Highest(a[..i], fits)
      {
        HighestStep(a, i, fits);
        if a[i].subject == subject && a[i].generation == generation && (found.None? || found.value.seqno < a[i].seqno) {
          found := Some(a[i]);
        }
      }
      assert a[..|a|] == a;
    }

    method FindActiveAuthority(subject: LinkKey, generation: nat) returns (found: Option<AttemptRecord>)
      ensures found == ActiveAuthority(state, subject, generation)
    {
      hide Highest;
      var a := state.attempts;
      ghost var fits := ActiveOfThisPair(state, subject, generation);
      found := None;
      HighestNone(a, fits);
      for i := 0 to |a|
        invariant found == Highest(a[..i], fits)
      {
        HighestStep(a, i, fits);
        var r := a[i];
        if r.subject == subject && r.generation == generation && HoldsAuthority(r.phase)
           && r.authority.epoch == state.epoch && r.authority.coordinator == state.coordinator
           && (found.None? || found.value.seqno < r.seqno)
        {
          found := Some(r);
        }
      }
      assert a[..|a|] == a;
    }

    method FindIdempotency(key: Digest) returns (r: Option<IdempotencyEntry>)
      ensures r == FindEntry(state.idempotency, key)
    {
      var index := state.idempotency;
      if key == ZERO_DIGEST {
        return None;
      }
      for i := 0 to |index|
        invariant FindEntry(index, key) == FindEntry(index[i..], key)
      {
        if index[i].key == key {
          return Some(index[i]);
        }
      }
      return None;
    }

    // ---- the tables ----

    method UpsertAttempt(r: AttemptRecord)
      modifies this`state
      ensures state == old(state).(attempts := Upsert(old(state).attempts, r))
    {
      var a := state.attempts;
      for i := 0 to |a|
        invariant state == old(state)
        invariant forall j :: 0 <= j < i ==> a[j].subject != r.subject || a[j].seqno != r.seqno
      {
        if a[i].subject == r.subject && a[i].seqno == r.seqno {
          IndexFrom(a, i, r.subject, r.seqno);
          state := state.(attempts := a[i := r]);
          return;
        }
      }
      IndexFrom(a, |a|, r.subject, r.seqno);
      state := state.(attempts := a + [r]);
    }

    /** The place of the first terminal attempt, or the table's length. */
    method FindVictim(a: seq<AttemptRecord>) returns (i: nat)
      ensures i == FirstTerminal(a)
    {
      i := 0;
      while i < |a| && !Terminal(a[i].phase)
        invariant i <= |a|
        invariant forall j :: 0 <= j < i ==> !Terminal(a[j].phase)
      {
        i := i + 1;
      }
      FirstTerminalIs(a, i);
    }

    method EvictAttempts()
      modifies this`state
      ensures state == old(state).(attempts := RetainAttempts(old(state).attempts, limits.maxAttempts))
    {
      if |state.attempts| <= limits.maxAttempts {
        return;
      }
      ghost var sorted := Sort(state.attempts, AttemptLess);
      state := state.(attempts := Sort(state.attempts, AttemptLess));
      while |state.attempts| > limits.maxAttempts
        invariant state == old(state).(attempts := state.attempts)
        invariant DropTerminal(state.attempts, limits.maxAttempts) == DropTerminal(sorted, limits.maxAttempts)
        decreases |state.attempts|
      {
        var i := FindVictim(state.attempts);
        if i == |state.attempts| {
          break;
        }
        state := state.(attempts := state.attempts[..i] + state.attempts[i + 1..]);
      }
    }

    method EvictFences()
      modifies this`state
      ensures state == old(state).(fences := RetainFences(old(state).fences, limits.maxFences))
    {
      if |state.fences| <= limits.maxFences {
        return;
      }
      var sorted := Sort(state.fences, FenceLess);
      var excess := |sorted| - limits.maxFences;
      state := state.(fences := sorted[excess..]);
    }

    method EvictIdempotency()
      modifies this`state
      ensures state == old(state).(idempotency := RetainEntries(old(state).idempotency, limits.maxIdempotency))
    {
      if |state.idempotency| <= limits.maxIdempotency {
        return;
      }
      var excess := |state.idempotency| - limits.maxIdempotency;
      state := state.(idempotency := state.idempotency[excess..]);
    }

    /** What each kind of record does to the live state once it is on the medium. */
    method Note(rec: Record, seqno: nat)
      modifies this`state
      ensures state == Effect(old(state), rec, seqno, limits)
    {
      match rec {
        case Boot(epoch, coordinator, boots, advances) =>
          state := state.(epoch := epoch, coordinator := coordinator, bootCount := boots, epochAdvances := advances);
        case PolicyCommit(policy) => state := state.(policy := policy);
        case TopologyCommit(topology) => state := state.(topology := topology);
        case AttemptPut(kind, attempt) =>
          var stored := attempt.(updateSeq := seqno);
          if kind.Create? {
            stored := stored.(createSeq := seqno);
          }
          UpsertAttempt(stored);
          if !kind.Interruption? {
            EvictAttempts();
          }
        case FencePut(fence) =>
          state := state.(fences := state.fences + [fence.(seqno := seqno)]);
          EvictFences();
        case IdempotencyIndex(entry) =>
          state := state.(idempotency := state.idempotency + [entry]);
          EvictIdempotency();
        case DecisionCommit(_) =>
        case CheckpointMark(_, _) =>
        case ShutdownMark(_, _, _) =>
      }
    }

    // ---- commits ----

    /** Appends one record to the journal. */
    method Append(rec: Record, seqno: nat) returns (ok: bool)
      requires seqno == state.lastSeq + 1
      modifies this`medium, this`fate, this`described
      ensures ok == (old(fate).room > 0)
      ensures medium == if ok || old(fate).lands then WithEntry(old(medium), Entry(seqno, rec)) else old(medium)
      ensures described == if ok || old(fate).lands then After(state, rec, limits) else old(described)
      ensures fate == if ok then old(fate).(room := old(fate).room - 1) else old(fate)
    {
      ok := fate.room > 0;
      if ok || fate.lands {
        if medium.journal.Some? {
          var j := medium.journal.value;
          medium := medium.(journal := Some(j.(entries := j.entries + [Entry(seqno, rec)])));
        }
        described := After(state, rec, limits);
      }
      if ok {
        fate := fate.(room := fate.room - 1);
      }
    }

    method CommitRecord(rec: Record) returns (ok: bool)
      modifies this
      ensures View() == Commit(old(View()), rec)
      ensures ok == !failed
    {
      hide Effect;
      if failed {
        return false;
      }
      var next := state.lastSeq + 1;
      if next >= U64_LIMIT {
        failed := true;
        return false;
      }
      var appended := Append(rec, next);
      if !appended {
        failed := true;
        return false;
      }
      ghost var before := state;
      Note(rec, next);
      EffectKeepsCounters(before, rec, next, limits);
      state := state.(lastSeq := next, recordCount := state.recordCount + 1);
      recordsSinceSnapshot := recordsSinceSnapshot + 1;
      return true;
    }

    /** Interrupts and fences every attempt that the previous process left in flight. */
    method FenceRestartAuthority(epoch: nat, incarnation: Incarnation) returns (ok: bool, interrupted: nat)
      requires !failed
      modifies this
      ensures View() == Protocol.FenceRestart(old(View()), old(state.attempts), epoch, incarnation)
      ensures ok == !failed
      ensures ok ==> interrupted == Protocol.InFlight(old(state.attempts))
    {
      hide Commit, Protocol.FenceRestart, Protocol.Cut, Protocol.InFlight;
      interrupted := 0;
      var snapshot := state.attempts;
      assert snapshot[0..] == snapshot;
      for i := 0 to |snapshot|
        invariant !failed
        invariant Protocol.FenceRestart(View(), snapshot[i..], epoch, incarnation) == Protocol.FenceRestart(old(View()), snapshot, epoch, incarnation)
        invariant interrupted + Protocol.InFlight(snapshot[i..]) == Protocol.InFlight(snapshot)
      {
        var r := snapshot[i];
        FenceRestartStep(View(), snapshot, i, epoch, incarnation);
        InFlightStep(snapshot, i);
        if Terminal(r.phase) {
          continue;
        }
        var put := CommitRecord(AttemptPut(Interruption, Protocol.Cut(r)));
        if !put {
          FenceRestartStops(View(), snapshot[i + 1..], epoch, incarnation);
          return false, interrupted;
        }
        interrupted := interrupted + 1;
        var fenced := CommitRecord(FencePut(FenceRecord(PreRestartAuthority, r.subject, r.generation, r.seqno, epoch, incarnation, 0, [])));
        if !fenced {
          FenceRestartStops(View(), snapshot[i + 1..], epoch, incarnation);
          return false, interrupted;
        }
      }
      FenceRestartStops(View(), snapshot[|snapshot|..], epoch, incarnation);
      NoneInFlight();
      return true, interrupted;
    }

    method TakeCheckpoint() returns (ok: bool)
      modifies this
      ensures (View(), ok) == Lineage.Checkpoint(old(View()))
    {
      hide Commit;
      if failed {
        return false;
      }
      if fate.snapshot.SnapshotLost? {
        return false;
      }
      medium := medium.(snapshot := Some(state));
      var covers, count := state.lastSeq, state.recordCount;
      if fate.snapshot.RotationLost? {
        failed := true;
        return false;
      }
      medium := medium.(journal := Some(Journal(covers, [])));
      if fate.snapshot.ReopenLost? {
        failed := true;
        return false;
      }
      recordsSinceSnapshot := 0;
      ok := CommitRecord(CheckpointMark(covers, count));
    }
  }

  /** Opens the store over a medium, as far as its options and its content allow. */
  method OpenLineage(m: Medium, o: StoreOptions, fate: Fate) returns (r: Restored, store: LineageStore?)
    ensures r == OpenStore(m, o, fate).0
    ensures r.Barred? ==> store == null && OpenStore(m, o, fate).1 == m
    ensures r.Restored? ==> store != null && fresh(store)
                            && store.View() == StoreState(r.state, r.state, OpenStore(m, o, fate).1, false, 0, o.limits, fate)
  {
    hide Replay, StartFault;
    store := null;
    var fault := StartFault(m, o);
    if fault.Some? {
      return Barred(fault.value.0, fault.value.1), null;
    }
    var state := if m.snapshot.Some? then m.snapshot.value else Blank(o);
    var covered := state.lastSeq;
    var target := m;
    if m.journal.Some? {
      var j := m.journal.value;
      var folded := ReplayJournal(state, covered, j.base, j.entries, o.limits);
      if folded.None? {
        return Barred(Outcome.Corrupt, CORRUPT_RECORD), null;
      }
      var last := LastOf(j.base, j.entries);
      if last < covered {
        last := covered;
      }
      state := folded.value.(lastSeq := last);
      var base := j.base;
      if base < covered {
        base := covered;
      }
      if j.base != base {
        return Barred(Outcome.Conflict, SEQUENCE_REGRESSION), null;
      }
    } else {
      if !fate.creates {
        return Barred(Outcome.IoError, INTERNAL_ERROR), null;
      }
      target := m.(journal := Some(Journal(covered, [])));
    }
    r := Restored(state);
    store := new LineageStore(state, target, o.limits, fate);
  }

  lemma InFlightStep(a: seq<AttemptRecord>, i: nat)
    requires i < |a|
    ensures Protocol.InFlight(a[i..]) == Protocol.InFlight(a[i + 1..]) + (if Terminal(a[i].phase) then 0 else 1)
  {
    assert a[i..][1..] == a[i + 1..];
  }

  lemma FenceRestartStep(s: StoreState, a: seq<AttemptRecord>, i: nat, epoch: nat, incarnation: Incarnation)
    requires i < |a| && !s.failed
    ensures Protocol.FenceRestart(s, a[i..], epoch, incarnation)
         == Protocol.FenceRestart(if Terminal(a[i].phase) then s else Protocol.InterruptOne(s, a[i], epoch, incarnation), a[i + 1..], epoch, incarnation)
  {
    hide Protocol.InterruptOne;
    assert a[i..][1..] == a[i + 1..];
  }

  lemma FenceRestartStops(s: StoreState, rest: seq<AttemptRecord>, epoch: nat, incarnation: Incarnation)
    requires s.failed || rest == []
    ensures Protocol.FenceRestart(s, rest, epoch, incarnation) == s
  {}

  lemma CountNone(a: seq<AttemptRecord>, subject: LinkKey, generation: nat)
    ensures CountOf(a[..0], subject, generation) == 0
  {}

  lemma NoneInFlight()
    ensures Protocol.InFlight([]) == 0
  {}

  lemma HighestNone(a: seq<AttemptRecord>, fits: AttemptRecord -> bool)
    ensures Highest(a[..0], fits) == None
  {}

  lemma EffectKeepsCounters(d: DurableState, rec: Record, seqno: nat, limits: Limits)
    ensures Effect(d, rec, seqno, limits).lastSeq == d.lastSeq && Effect(d, rec, seqno, limits).recordCount == d.recordCount
  {}
}
