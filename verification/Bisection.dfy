/** Implied volatility by bisection (the path without scipy), over the real numbers. The objective, model price
minus market price, is a parameter: what is shown of the bracket holds for every objective, and where its zero is
follows for increasing ones. */
module Bisection {
  const LOWER := 0.000001
  const UPPER := 5.0
  const TOLERANCE := 0.00000001
  const ROUNDS := 200

  function Abs(x: real): real { if x < 0.0 then -x else x }

  /** How the search ended. */
  datatype Outcome =
    | Found(vol: real)      // a value whose objective is within the tolerance, or an exact end of the range
    | Narrowed(vol: real)   // the middle of the last bracket
    | Fallback(vol: real)   // no sign change: the lower end, which prices closer
    | NoBracket             // the exception

  ghost predicate StrictlyIncreasing(f: real -> real) {
    forall x, y :: x < y ==> f(x) < f(y)
  }

  /** Width of the bracket after `k` halvings. */
  function Width(k: nat): real {
    if k == 0 then UPPER - LOWER else Width(k - 1) / 2.0
  }

  function PowerOfTwo(n: nat): (p: real)
    ensures p > 0.0
  {
    if n == 0 then 1.0 else 2.0 * PowerOfTwo(n - 1)
  }

  lemma {:induction false} WidthMeaning(k: nat)
    ensures Width(k) == (UPPER - LOWER) / PowerOfTwo(k)
  {
    if k > 0 {
      WidthMeaning(k - 1);
      HalfOfQuotient(UPPER - LOWER, PowerOfTwo(k - 1));
    }
  }

  lemma HalfOfQuotient(a: real, b: real)
    requires b > 0.0
    ensures a / b / 2.0 == a / (2.0 * b)
  {
    var q := a / b;
    assert q * b == a;
    assert (q / 2.0) * (2.0 * b) == a;
  }

  predicate Opposite(a: real, b: real) {
    (a < 0.0 && b > 0.0) || (a > 0.0 && b < 0.0)
  }

  /** A bracket of the search after `k` rounds, whatever the objective: its ends have opposite signs. */
  ghost predicate IsBracket(f: real -> real, lo: real, hi: real, k: nat) {
    LOWER <= lo < hi <= UPPER && hi - lo == Width(k) && Opposite(f(lo), f(hi))
  }

  lemma SignOfProduct(a: real, b: real)
    ensures a * b > 0.0 <==> (a > 0.0 && b > 0.0) || (a < 0.0 && b < 0.0)
    ensures a * b < 0.0 <==> Opposite(a, b)
  {
    if a > 0.0 && b > 0.0 { Product(a, b); }
    if a < 0.0 && b < 0.0 { Product(-a, -b); }
    if a > 0.0 && b < 0.0 { Product(a, -b); }
    if a < 0.0 && b > 0.0 { Product(-a, b); }
  }

  lemma Product(x: real, y: real)
    requires x > 0.0 && y > 0.0
    ensures x * y > 0.0
  {
  }

  /** `_solve_implied_volatility` without scipy. `lo` and `hi` are the last bracket. */
  method SolveImpliedVolatility(f: real -> real) returns (outcome: Outcome, ghost lo: real, ghost hi: real)
    ensures outcome.Found? ==> LOWER <= outcome.vol <= UPPER && Abs(f(outcome.vol)) < TOLERANCE
    ensures outcome.Narrowed? ==> IsBracket(f, lo, hi, ROUNDS) && outcome.vol == (lo + hi) / 2.0
    ensures outcome.Fallback? ==> outcome.vol == LOWER
    ensures outcome.Fallback? <==> f(LOWER) * f(UPPER) > 0.0 && Abs(f(LOWER)) < Abs(f(UPPER))
    ensures outcome.NoBracket? <==> f(LOWER) * f(UPPER) > 0.0 && Abs(f(LOWER)) >= Abs(f(UPPER))
  {
    var low, high := LOWER, UPPER;
    lo, hi := low, high;
    var fLow, fHigh := f(low), f(high);
    SignOfProduct(fLow, fHigh);
    if fLow == 0.0 {
      return Found(low), lo, hi;
    }
    if fHigh == 0.0 {
      return Found(high), lo, hi;
    }
    if fLow * fHigh > 0.0 {
      if Abs(fLow) < Abs(fHigh) {
        return Fallback(low), lo, hi;
      }
      return NoBracket, lo, hi;
    }
    for k := 0 to ROUNDS
      invariant IsBracket(f, low, high, k) && fLow == f(low) && fHigh == f(high)
    {
      var mid := (low + high) / 2.0;
      var fMid := f(mid);
      if Abs(fMid) < TOLERANCE {
        return Found(mid), low, high;
      }
      SignOfProduct(fLow, fMid);
      if fLow * fMid <= 0.0 {
        high, fHigh := mid, fMid;
      } else {
        low, fLow := mid, fMid;
      }
    }
    return Narrowed((low + high) / 2.0), low, high;
  }

  /** For a strictly increasing objective every bracket holds its zero, and the middle of the last one lies within
      half the bracket of it. */
  lemma BracketHoldsZero(f: real -> real, lo: real, hi: real, k: nat, z: real)
    requires StrictlyIncreasing(f) && IsBracket(f, lo, hi, k) && f(z) == 0.0
    ensures f(lo) < 0.0 < f(hi) && lo < z < hi
    ensures Abs((lo + hi) / 2.0 - z) < (UPPER - LOWER) / PowerOfTwo(k + 1)
  {
    assert f(lo) < f(hi);
    assert z < lo ==> f(z) < f(lo);
    assert z > hi ==> f(hi) < f(z);
    WidthMeaning(k + 1);
  }

  /** For a strictly increasing objective the two ways of finding no bracket are exactly: every volatility in the
      range prices too high, and every one too low. */
  lemma NoSignChange(f: real -> real)
    requires StrictlyIncreasing(f)
    ensures (f(LOWER) * f(UPPER) > 0.0 && Abs(f(LOWER)) < Abs(f(UPPER))) <==> f(LOWER) > 0.0
    ensures (f(LOWER) * f(UPPER) > 0.0 && Abs(f(LOWER)) >= Abs(f(UPPER))) <==> f(UPPER) < 0.0
  {
    SignOfProduct(f(LOWER), f(UPPER));
    assert f(LOWER) < f(UPPER);
  }
}
