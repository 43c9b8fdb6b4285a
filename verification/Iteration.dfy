/** Repeated application of one function, for any type of value. */
module Iteration {

  function Iterate<T>(f: T -> T, n: nat, x: T): T {
    if n == 0 then x else Iterate(f, n - 1, f(x))
  }

  ghost predicate Homomorphism<T(!new)>(f: T -> T, op: (T, T) -> T) {
    forall a, b :: f(op(a, b)) == op(f(a), f(b))
  }

  lemma {:induction false} IterateHomomorphism<T(!new)>(f: T -> T, op: (T, T) -> T, n: nat, x: T, y: T)
    requires Homomorphism(f, op)
    ensures Iterate(f, n, op(x, y)) == op(Iterate(f, n, x), Iterate(f, n, y))
    decreases n
  {
    if n != 0 { IterateHomomorphism(f, op, n - 1, f(x), f(y)); }
  }

  lemma {:induction false} IterateAdd<T(!new)>(f: T -> T, m: nat, n: nat, x: T)
    ensures Iterate(f, m + n, x) == Iterate(f, n, Iterate(f, m, x))
    decreases m
  {
    if m != 0 { IterateAdd(f, m - 1, n, f(x)); }
  }

  lemma {:induction false} IterateInjective<T(!new)>(f: T -> T, n: nat, x: T, y: T)
    requires forall a, b :: f(a) == f(b) ==> a == b
    requires Iterate(f, n, x) == Iterate(f, n, y)
    ensures x == y
    decreases n
  {
    if n != 0 { IterateInjective(f, n - 1, f(x), f(y)); }
  }

  lemma Unroll8<T>(f: T -> T, x: T)
    ensures Iterate(f, 8, x) == f(f(f(f(f(f(f(f(x))))))))
  {
    assert Iterate(f, 8, x) == Iterate(f, 7, f(x)) == Iterate(f, 6, f(f(x))) == Iterate(f, 5, f(f(f(x))))
        == Iterate(f, 4, f(f(f(f(x))))) == Iterate(f, 3, f(f(f(f(f(x))))));
  }
}
