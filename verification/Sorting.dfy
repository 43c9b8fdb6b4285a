/** Sorting by a strict order: what a library sort is relied on for. */
module Sorting {

  ghost predicate StrictOrder<T(!new)>(less: (T, T) -> bool) {
    && (forall a :: !less(a, a))
    && (forall a, b, c :: less(a, b) && less(b, c) ==> less(a, c))
    && (forall a, b, c :: less(a, c) ==> less(a, b) || less(b, c))
  }

  function Insert<T>(x: T, s: seq<T>, less: (T, T) -> bool): (r: seq<T>)
    ensures |r| == |s| + 1
    decreases |s|
  {
    if s == [] || less(x, s[0]) then [x] + s
    else [s[0]] + Insert(x, s[1..], less)
  }

  function Sort<T>(s: seq<T>, less: (T, T) -> bool): (r: seq<T>)
    ensures |r| == |s|
    decreases |s|
  {
    if s == [] then [] else Insert(s[|s| - 1], Sort(s[..|s| - 1], less), less)
  }

  ghost predicate Ordered<T>(s: seq<T>, less: (T, T) -> bool) {
    forall i, j :: 0 <= i < j < |s| ==> !less(s[j], s[i])
  }

  /** Any two elements at different places are comparable. */
  ghost predicate Separated<T>(s: seq<T>, less: (T, T) -> bool) {
    forall i, j :: 0 <= i < j < |s| ==> less(s[i], s[j]) || less(s[j], s[i])
  }

  lemma {:induction false} InsertAdds<T>(x: T, s: seq<T>, less: (T, T) -> bool)
    ensures multiset(Insert(x, s, less)) == multiset(s) + multiset{x}
    decreases |s|
  {
    if s != [] && !less(x, s[0]) {
      InsertAdds(x, s[1..], less);
      assert s == [s[0]] + s[1..];
    }
  }

  lemma {:induction false} InsertBelow<T(!new)>(low: T, x: T, s: seq<T>, less: (T, T) -> bool)
    requires !less(x, low) && forall y :: y in s ==> !less(y, low)
    ensures forall y :: y in Insert(x, s, less) ==> !less(y, low)
  {
    InsertAdds(x, s, less);
    forall y | y in Insert(x, s, less) ensures !less(y, low) {
      assert y in multiset(Insert(x, s, less));
      assert y == x || y in multiset(s);
    }
  }

  lemma OrderedCons<T(!new)>(x: T, s: seq<T>, less: (T, T) -> bool)
    requires Ordered(s, less) && forall y :: y in s ==> !less(y, x)
    ensures Ordered([x] + s, less)
  {}

  lemma OrderedAbove<T(!new)>(x: T, s: seq<T>, less: (T, T) -> bool)
    requires StrictOrder(less) && Ordered(s, less) && s != [] && less(x, s[0])
    ensures forall y :: y in s ==> !less(y, x)
  {
    forall y | y in s ensures !less(y, x) {
      assert !less(y, s[0]);
    }
  }

  lemma {:induction false} InsertKeeps<T(!new)>(x: T, s: seq<T>, less: (T, T) -> bool)
    requires StrictOrder(less) && Ordered(s, less)
    ensures Ordered(Insert(x, s, less), less)
    decreases |s|
  {
    if s == [] {
    } else if less(x, s[0]) {
      OrderedAbove(x, s, less);
      OrderedCons(x, s, less);
    } else {
      InsertKeeps(x, s[1..], less);
      InsertBelow(s[0], x, s[1..], less);
      OrderedCons(s[0], Insert(x, s[1..], less), less);
    }
  }

  /** Sorting by anything moves elements and no more. */
  lemma {:induction false} SortHolds<T>(s: seq<T>, less: (T, T) -> bool)
    ensures multiset(Sort(s, less)) == multiset(s)
    decreases |s|
  {
    if s != [] {
      var front := s[..|s| - 1];
      SortHolds(front, less);
      InsertAdds(s[|s| - 1], Sort(front, less), less);
      assert s == front + [s[|s| - 1]];
    }
  }

  /** The sorted sequence is ordered and holds exactly the given elements. */
  lemma {:induction false} SortIsSorted<T(!new)>(s: seq<T>, less: (T, T) -> bool)
    requires StrictOrder(less)
    ensures Ordered(Sort(s, less), less)
    ensures multiset(Sort(s, less)) == multiset(s)
    decreases |s|
  {
    if s != [] {
      var front := s[..|s| - 1];
      SortIsSorted(front, less);
      InsertKeeps(s[|s| - 1], Sort(front, less), less);
    }
    SortHolds(s, less);
  }

  lemma SeparatedHead<T(!new)>(s: seq<T>, less: (T, T) -> bool)
    requires |s| > 0 && Ordered(s, less) && Separated(s, less)
    ensures forall x :: x in s[1..] ==> less(s[0], x)
  {}

  lemma MultisetOfTail<T>(s: seq<T>)
    requires s != []
    ensures multiset(s[1..]) == multiset(s) - multiset{s[0]}
  {
    assert s == [s[0]] + s[1..];
  }

  lemma HeadsAgree<T(!new)>(s: seq<T>, t: seq<T>, less: (T, T) -> bool)
    requires StrictOrder(less) && s != [] && t != [] && multiset(s) == multiset(t)
    requires Ordered(s, less) && Separated(s, less) && Ordered(t, less) && Separated(t, less)
    ensures s[0] == t[0]
  {
    assert s[0] in multiset(t) && t[0] in multiset(s);
    SeparatedHead(s, less);
    SeparatedHead(t, less);
  }

  /** Two ordered arrangements of the same separated elements are the same sequence. */
  lemma TailIsOrdered<T(!new)>(s: seq<T>, less: (T, T) -> bool)
    requires s != [] && Ordered(s, less) && Separated(s, less)
    ensures Ordered(s[1..], less) && Separated(s[1..], less)
  {}

  lemma {:induction false} OrderedUnique<T(!new)>(s: seq<T>, t: seq<T>, less: (T, T) -> bool)
    requires StrictOrder(less) && multiset(s) == multiset(t)
    requires Ordered(s, less) && Separated(s, less) && Ordered(t, less) && Separated(t, less)
    ensures s == t
    decreases |s|
  {
    hide Ordered, Separated, StrictOrder;
    assert |multiset(t)| == |multiset(s)|;
    if s != [] {
      HeadsAgree(s, t, less);
      MultisetOfTail(s);
      MultisetOfTail(t);
      TailIsOrdered(s, less);
      TailIsOrdered(t, less);
      OrderedUnique(s[1..], t[1..], less);
      assert s == [s[0]] + s[1..] && t == [t[0]] + t[1..];
    }
  }

  /** Pairwise comparability does not depend on the arrangement. */
  lemma {:induction false} SeparatedPermutes<T(!new)>(s: seq<T>, t: seq<T>, less: (T, T) -> bool)
    requires StrictOrder(less) && multiset(s) == multiset(t) && Separated(s, less)
    ensures Separated(t, less)
  {
    forall i, j | 0 <= i < j < |t| ensures less(t[i], t[j]) || less(t[j], t[i]) {
      assert t[i] in multiset(s) && t[j] in multiset(s);
      if t[i] == t[j] {
        SeparatedOnce(s, t[i], less);
        TwiceCounts(t, i, j);
        assert false;
      }
    }
  }

  lemma {:induction false} SeparatedOnce<T(!new)>(s: seq<T>, x: T, less: (T, T) -> bool)
    requires StrictOrder(less) && Separated(s, less)
    ensures multiset(s)[x] <= 1
    decreases |s|
  {
    if s != [] {
      var tail := s[1..];
      assert s == [s[0]] + tail;
      SeparatedOnce(tail, x, less);
      if s[0] == x && x in tail {
        assert false;
      }
    }
  }

  lemma {:induction false} TwiceCounts<T(!new)>(t: seq<T>, i: nat, j: nat)
    requires i < j < |t| && t[i] == t[j]
    ensures multiset(t)[t[i]] >= 2
  {
    assert t == t[..i] + [t[i]] + t[i + 1..j] + [t[j]] + t[j + 1..];
  }

  /** Sorting forgets the order its input came in. */
  lemma SortForgetsOrder<T(!new)>(s: seq<T>, t: seq<T>, less: (T, T) -> bool)
    requires StrictOrder(less) && multiset(s) == multiset(t) && Separated(s, less)
    ensures Sort(s, less) == Sort(t, less)
  {
    SortIsSorted(s, less);
    SortIsSorted(t, less);
    SeparatedPermutes(s, Sort(s, less), less);
    SeparatedPermutes(s, Sort(t, less), less);
    OrderedUnique(Sort(s, less), Sort(t, less), less);
  }
}
