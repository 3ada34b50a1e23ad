/** Doing the same thing again until it is time to stop. */
module Iteration {
  function Iterate<T>(next: T -> T, x: T, n: nat): T {
    if n == 0 then x else next(Iterate(next, x, n - 1))
  }

  ghost predicate ReachedIn<T>(next: T -> T, stop: T -> bool, x: T, y: T, n: nat) {
    y == Iterate(next, x, n) && forall k: nat :: k < n ==> !stop(Iterate(next, x, k))
  }

  /** `y` comes some steps after `x`, and it was not time to stop before. */
  ghost predicate Reached<T>(next: T -> T, stop: T -> bool, x: T, y: T) {
    exists n: nat :: ReachedIn(next, stop, x, y, n)
  }

  lemma ReachedNow<T>(next: T -> T, stop: T -> bool, x: T)
    ensures Reached(next, stop, x, x)
  {
    assert ReachedIn(next, stop, x, x, 0);
  }

  lemma ReachedNext<T>(next: T -> T, stop: T -> bool, x: T, y: T)
    requires Reached(next, stop, x, y) && !stop(y)
    ensures Reached(next, stop, x, next(y))
  {
    var n: nat :| ReachedIn(next, stop, x, y, n);
    assert ReachedIn(next, stop, x, next(y), n + 1);
  }

  /** There is only one place to stop. */
  lemma ReachedOnce<T>(next: T -> T, stop: T -> bool, x: T, y: T, z: T)
    requires Reached(next, stop, x, y) && stop(y) && Reached(next, stop, x, z) && stop(z)
    ensures y == z
  {
    var n: nat :| ReachedIn(next, stop, x, y, n);
    var m: nat :| ReachedIn(next, stop, x, z, m);
    assert n < m ==> !stop(Iterate(next, x, n));
    assert m < n ==> !stop(Iterate(next, x, m));
  }

  /** What every step keeps holds wherever it leads. */
  lemma {:induction false} Kept<T(!new)>(next: T -> T, keeps: T -> bool, x: T, n: nat)
    requires keeps(x) && forall y: T :: keeps(y) ==> keeps(next(y))
    ensures keeps(Iterate(next, x, n))
  {
    if n > 0 {
      Kept(next, keeps, x, n - 1);
    }
  }

  lemma KeptUntil<T(!new)>(next: T -> T, stop: T -> bool, keeps: T -> bool, x: T, y: T)
    requires keeps(x) && (forall z: T :: keeps(z) ==> keeps(next(z))) && Reached(next, stop, x, y)
    ensures keeps(y)
  {
    var n: nat :| ReachedIn(next, stop, x, y, n);
    Kept(next, keeps, x, n);
  }
}
