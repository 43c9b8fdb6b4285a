/** Values shared by every component: names, link keys, digests and their order. */
module Basics {

  datatype Option<+T> = None | Some(value: T)

  import opened ByteBits

  const U32_LIMIT: nat := 0x1_0000_0000
  const U64_LIMIT: nat := 0x1_0000_0000_0000_0000

  /** A validated identity; the empty name means "absent". */
  type Name = seq<byte>

  /** A 32-byte content digest; the all-zero digest means "absent". */
  type Digest = seq<byte>

  /** The 16-byte identity of one process boot. */
  type Incarnation = seq<byte>

  function Zeros(n: nat): (s: seq<byte>)
    ensures |s| == n
  {
    seq(n, _ => 0)
  }

  const ZERO_DIGEST: Digest := Zeros(32)
  const ZERO_INCARNATION: Incarnation := Zeros(16)

  datatype LinkKey = LinkKey(fabric: Name, link: Name) {
    predicate Empty() { fabric == [] || link == [] }
  }

  const NO_LINK := LinkKey([], [])

  /** Byte-wise lexicographic order on names. */
  predicate NameLess(a: Name, b: Name)
    decreases |a|
  {
    if a == [] then b != []
    else if b == [] then false
    else if a[0] != b[0] then a[0] < b[0]
    else NameLess(a[1..], b[1..])
  }

  lemma {:induction false} NameLessIrreflexive(a: Name)
    ensures !NameLess(a, a)
    decreases |a|
  {
    if a != [] { NameLessIrreflexive(a[1..]); }
  }

  lemma {:induction false} NameLessTotal(a: Name, b: Name)
    ensures NameLess(a, b) || NameLess(b, a) || a == b
    decreases |a|
  {
    if a != [] && b != [] && a[0] == b[0] {
      NameLessTotal(a[1..], b[1..]);
      assert a == [a[0]] + a[1..] && b == [b[0]] + b[1..];
    }
  }

  lemma {:induction false} NameLessTransitive(a: Name, b: Name, c: Name)
    requires NameLess(a, b) && NameLess(b, c)
    ensures NameLess(a, c)
    decreases |a|
  {
    if a != [] && a[0] == b[0] && b[0] == c[0] {
      NameLessTransitive(a[1..], b[1..], c[1..]);
    }
  }

  lemma NameLessAsymmetric(a: Name, b: Name)
    requires NameLess(a, b)
    ensures !NameLess(b, a)
  {
    if NameLess(b, a) {
      NameLessTransitive(a, b, a);
      NameLessIrreflexive(a);
    }
  }

  /** Links order by fabric, then by link name. */
  predicate LinkLess(a: LinkKey, b: LinkKey) {
    if NameLess(a.fabric, b.fabric) then true
    else if NameLess(b.fabric, a.fabric) then false
    else NameLess(a.link, b.link)
  }

  lemma LinkLessStrictTotal(a: LinkKey, b: LinkKey)
    ensures !LinkLess(a, a)
    ensures LinkLess(a, b) ==> !LinkLess(b, a)
    ensures LinkLess(a, b) || LinkLess(b, a) || a == b
  {
    NameLessIrreflexive(a.fabric);
    NameLessIrreflexive(a.link);
    NameLessTotal(a.fabric, b.fabric);
    NameLessTotal(a.link, b.link);
    if NameLess(a.fabric, b.fabric) { NameLessAsymmetric(a.fabric, b.fabric); }
    if NameLess(b.fabric, a.fabric) { NameLessAsymmetric(b.fabric, a.fabric); }
    if NameLess(a.link, b.link) { NameLessAsymmetric(a.link, b.link); }
  }

  lemma LinkLessTransitive(a: LinkKey, b: LinkKey, c: LinkKey)
    requires LinkLess(a, b) && LinkLess(b, c)
    ensures LinkLess(a, c)
  {
    LinkLessStrictTotal(a, b);
    LinkLessStrictTotal(b, c);
    NameLessTotal(a.fabric, b.fabric);
    NameLessTotal(b.fabric, c.fabric);
    NameLessIrreflexive(a.fabric);
    if NameLess(a.fabric, b.fabric) && NameLess(b.fabric, c.fabric) {
      NameLessTransitive(a.fabric, b.fabric, c.fabric);
    } else if a.fabric == b.fabric == c.fabric {
      NameLessTransitive(a.link, b.link, c.link);
    }
  }

  /** Every way in which three links can compare. */
  lemma LinkOrderCases(a: LinkKey, b: LinkKey, c: LinkKey)
    ensures LinkLess(a, b) && LinkLess(b, c) ==> LinkLess(a, c)
    ensures a == b || LinkLess(a, b) || LinkLess(b, a)
    ensures b == c || LinkLess(b, c) || LinkLess(c, b)
    ensures a == c || LinkLess(a, c) || LinkLess(c, a)
    ensures LinkLess(a, b) ==> !LinkLess(b, a)
    ensures LinkLess(b, c) ==> !LinkLess(c, b)
    ensures LinkLess(a, c) ==> !LinkLess(c, a)
    ensures LinkLess(a, c) && LinkLess(c, b) ==> LinkLess(a, b)
    ensures LinkLess(b, a) && LinkLess(a, c) ==> LinkLess(b, c)
    ensures !LinkLess(a, a) && !LinkLess(b, b) && !LinkLess(c, c)
  {
    LinkLessStrictTotal(a, b);
    LinkLessStrictTotal(b, c);
    LinkLessStrictTotal(a, c);
    LinkLessStrictTotal(c, c);
    LinkLessStrictTotal(b, b);
    if LinkLess(a, b) && LinkLess(b, c) { LinkLessTransitive(a, b, c); }
    if LinkLess(a, c) && LinkLess(c, b) { LinkLessTransitive(a, c, b); }
    if LinkLess(b, a) && LinkLess(a, c) { LinkLessTransitive(b, a, c); }
  }
}
