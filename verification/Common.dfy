/** Datatypes, and facts about finite sets and division, shared by the modules. */
module Common {
  datatype Option<+T> = None | Some(value: T)

  lemma AnyElement<T>(s: set<T>) returns (x: T)
    requires s != {}
    ensures x in s
  {
    x :| x in s;
  }

  lemma {:induction false} SubsetSize<T>(a: set<T>, b: set<T>)
    requires a <= b
    ensures |a| <= |b|
  {
    if a != {} {
      var x :| x in a;
      SubsetSize(a - {x}, b - {x});
    }
  }

  lemma MulMonotone(a: int, b: int, n: int)
    requires n >= 0 && a <= b
    ensures a * n <= b * n
  {
  }

  /** Quotient and remainder are the only ones. */
  lemma Division(x: int, n: int, q: int, r: int)
    requires n > 0 && x == q * n + r && 0 <= r < n
    ensures x / n == q && x % n == r
  {
    if x / n > q { MulMonotone(q + 1, x / n, n); }
    if x / n < q { MulMonotone(x / n + 1, q, n); }
  }
}
