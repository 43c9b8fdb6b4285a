/** The attempt table under an upsert: members, sequences and counts. */
module Table {
  import opened Basics
  import opened Records
  import opened Lineage

  predicate SameKey(a: AttemptRecord, b: AttemptRecord) { a.subject == b.subject && a.seqno == b.seqno }

  predicate SamePair(a: AttemptRecord, b: AttemptRecord) { a.subject == b.subject && a.generation == b.generation }

  ghost predicate UniqueKeys(a: seq<AttemptRecord>) {
    forall i, j :: 0 <= i < j < |a| ==> !SameKey(a[i], a[j])
  }

  /** The sequences in use by one link generation. */
  function SeqnosOf(a: seq<AttemptRecord>, subject: LinkKey, generation: nat): set<nat> {
    set r | r in a && OfPair(r, subject, generation) :: r.seqno
  }

  function UpTo(n: nat): (s: set<nat>)
    ensures forall k :: k in s <==> 1 <= k <= n
  {
    if n == 0 then {} else UpTo(n - 1) + {n}
  }

  lemma NoTwins(a: seq<AttemptRecord>, i: nat, k: nat)
    requires UniqueKeys(a) && i < |a| && k < |a| && SameKey(a[i], a[k])
    ensures i == k
  {}

  lemma LookupIs(a: seq<AttemptRecord>, r: AttemptRecord)
    requires UniqueKeys(a) && r in a
    ensures Lookup(a, r.subject, r.seqno) == Some(r)
  {
    var i :| 0 <= i < |a| && a[i] == r;
    var k := IndexOf(a, r.subject, r.seqno);
    NoTwins(a, k, i);
  }

  lemma LookupSome(a: seq<AttemptRecord>, subject: LinkKey, seqno: nat)
    ensures Lookup(a, subject, seqno).Some? ==>
              var r := Lookup(a, subject, seqno).value; r in a && r.subject == subject && r.seqno == seqno
    ensures Lookup(a, subject, seqno).None? ==> forall r :: r in a ==> r.subject != subject || r.seqno != seqno
  {}

  /** An upsert keeps the keys unique; its members are the new record and the old ones under other keys. */
  lemma UpsertMembers(a: seq<AttemptRecord>, r: AttemptRecord)
    requires UniqueKeys(a)
    ensures UniqueKeys(Upsert(a, r))
    ensures forall x :: x in Upsert(a, r) <==> x == r || (x in a && !SameKey(x, r))
  {
    var b := Upsert(a, r);
    var i := IndexOf(a, r.subject, r.seqno);
    forall x | x in a && !SameKey(x, r) ensures x in b {
      var k :| 0 <= k < |a| && a[k] == x;
      assert b[k] == x;
    }
    assert r == b[i];
    forall x | x in b && x != r ensures x in a && !SameKey(x, r) {
      var k :| 0 <= k < |b| && b[k] == x;
      assert k != i && a[k] == x;
      if i < |a| {
        assert if i < k then !SameKey(a[i], a[k]) else !SameKey(a[k], a[i]);
      }
    }
  }

  lemma UpsertSize(a: seq<AttemptRecord>, r: AttemptRecord)
    ensures |Upsert(a, r)| == |a| + (if Lookup(a, r.subject, r.seqno).Some? then 0 else 1)
  {}

  lemma UpsertSeqnos(a: seq<AttemptRecord>, r: AttemptRecord, subject: LinkKey, generation: nat)
    requires UniqueKeys(a)
    ensures OfPair(r, subject, generation)
            ==> SeqnosOf(Upsert(a, r), subject, generation) == SeqnosOf(a, subject, generation) + {r.seqno}
    ensures subject != r.subject ==> SeqnosOf(Upsert(a, r), subject, generation) == SeqnosOf(a, subject, generation)
  {
    UpsertMembers(a, r);
    var b := Upsert(a, r);
    forall n | n in SeqnosOf(a, subject, generation) && (OfPair(r, subject, generation) || subject != r.subject)
      ensures n in SeqnosOf(b, subject, generation)
    {
      var x :| x in a && OfPair(x, subject, generation) && x.seqno == n;
      if SameKey(x, r) { assert r in b && r.seqno == n; } else { assert x in b; }
    }
    assert r in b;
  }

  lemma {:induction false} CountReplace(a: seq<AttemptRecord>, i: nat, r: AttemptRecord, subject: LinkKey, generation: nat)
    requires i < |a|
    ensures CountOf(a[i := r], subject, generation)
         == CountOf(a, subject, generation) - (if OfPair(a[i], subject, generation) then 1 else 0)
            + (if OfPair(r, subject, generation) then 1 else 0)
    decreases |a|
  {
    var n := |a| - 1;
    if i == n {
      assert a[i := r][..n] == a[..n];
    } else {
      assert a[i := r][..n] == a[..n][i := r];
      CountReplace(a[..n], i, r, subject, generation);
    }
  }

  lemma UpsertCounts(a: seq<AttemptRecord>, r: AttemptRecord, subject: LinkKey, generation: nat)
    ensures var was := Lookup(a, r.subject, r.seqno);
            CountOf(Upsert(a, r), subject, generation)
            == CountOf(a, subject, generation) - (if was.Some? && OfPair(was.value, subject, generation) then 1 else 0)
               + (if OfPair(r, subject, generation) then 1 else 0)
  {
    var i := IndexOf(a, r.subject, r.seqno);
    if i < |a| {
      CountReplace(a, i, r, subject, generation);
    } else {
      assert (a + [r])[..|a|] == a;
    }
  }

  lemma {:induction false} NoneCounted(a: seq<AttemptRecord>, subject: LinkKey, generation: nat)
    ensures CountOf(a, subject, generation) == 0 <==> forall r :: r in a ==> !OfPair(r, subject, generation)
    decreases |a|
  {
    if a != [] {
      var n := |a| - 1;
      NoneCounted(a[..n], subject, generation);
      assert a == a[..n] + [a[n]];
    }
  }

  // ---- records apart from where the lineage put them ----

  /** A record with its two lineage positions erased. */
  function Bare(r: AttemptRecord): AttemptRecord { r.(createSeq := 0, updateSeq := 0) }

  ghost predicate Alike(a: seq<AttemptRecord>, b: seq<AttemptRecord>) {
    |a| == |b| && forall i :: 0 <= i < |a| ==> Bare(a[i]) == Bare(b[i])
  }

  lemma {:induction false} AlikeIndex(a: seq<AttemptRecord>, b: seq<AttemptRecord>, subject: LinkKey, seqno: nat)
    requires Alike(a, b)
    ensures IndexOf(a, subject, seqno) == IndexOf(b, subject, seqno)
    decreases |a|
  {
    if a != [] {
      assert Bare(a[0]) == Bare(b[0]);
      assert Alike(a[1..], b[1..]) by {
        forall i | 0 <= i < |a[1..]| ensures Bare(a[1..][i]) == Bare(b[1..][i]) {
          assert Bare(a[i + 1]) == Bare(b[i + 1]);
        }
      }
      AlikeIndex(a[1..], b[1..], subject, seqno);
    }
  }

  /** Upserting records that are alike into tables that are alike leaves them alike. */
  lemma AlikeUpsert(a: seq<AttemptRecord>, b: seq<AttemptRecord>, r: AttemptRecord, t: AttemptRecord)
    requires Alike(a, b) && Bare(r) == Bare(t)
    ensures Alike(Upsert(a, r), Upsert(b, t))
  {
    AlikeIndex(a, b, r.subject, r.seqno);
  }

  lemma AlikeMember(a: seq<AttemptRecord>, b: seq<AttemptRecord>, r: AttemptRecord) returns (t: AttemptRecord)
    requires Alike(a, b) && r in a
    ensures t in b && Bare(t) == Bare(r)
  {
    var i :| 0 <= i < |a| && a[i] == r;
    t := b[i];
  }

  lemma {:induction false} AlikeCounts(a: seq<AttemptRecord>, b: seq<AttemptRecord>, subject: LinkKey, generation: nat)
    requires Alike(a, b)
    ensures CountOf(a, subject, generation) == CountOf(b, subject, generation)
    decreases |a|
  {
    if a != [] {
      var n := |a| - 1;
      assert Bare(a[n]) == Bare(b[n]);
      AlikeCounts(a[..n], b[..n], subject, generation);
    }
  }

  lemma AlikeSeqnos(a: seq<AttemptRecord>, b: seq<AttemptRecord>, subject: LinkKey, generation: nat)
    requires Alike(a, b)
    ensures SeqnosOf(a, subject, generation) == SeqnosOf(b, subject, generation)
  {
    forall n | n in SeqnosOf(a, subject, generation) ensures n in SeqnosOf(b, subject, generation) {
      var x :| x in a && OfPair(x, subject, generation) && x.seqno == n;
      var y := AlikeMember(a, b, x);
      assert Bare(x) == Bare(y);
    }
    forall n | n in SeqnosOf(b, subject, generation) ensures n in SeqnosOf(a, subject, generation) {
      var x :| x in b && OfPair(x, subject, generation) && x.seqno == n;
      var y := AlikeMember(b, a, x);
      assert Bare(x) == Bare(y);
    }
  }
}
