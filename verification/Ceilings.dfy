/** Quotients rounded up, exactly. */
module Ceilings {

  /** The least whole number that covers `n / d`. */
  ghost predicate IsCeiling(q: nat, n: nat, d: nat) {
    n <= q * d && forall other: nat :: n <= other * d ==> q <= other
  }

  function Ceiling(n: nat, d: nat): (q: nat)
    requires d > 0
  {
    (n + d - 1) / d
  }

  lemma CeilingIsLeast(n: nat, d: nat)
    requires d > 0
    ensures IsCeiling(Ceiling(n, d), n, d)
  {
    var q := Ceiling(n, d);
    assert q * d <= n + d - 1 < q * d + d;
    forall other: nat | n <= other * d ensures q <= other {
      NoSmallerMultiple(n, q, d, other);
    }
  }

  lemma NoSmallerMultiple(n: nat, q: nat, d: nat, other: nat)
    requires n > (q - 1) * d && n <= other * d
    ensures q <= other
  {
    if other <= q - 1 { LessTimes(other, q - 1, d); }
  }

  lemma CeilingIsUnique(q: nat, n: nat, d: nat)
    requires d > 0 && IsCeiling(q, n, d)
    ensures q == Ceiling(n, d)
  {
    CeilingIsLeast(n, d);
  }

  lemma LessTimes(a: nat, b: nat, d: nat)
    requires a <= b
    ensures a * d <= b * d && d * a <= d * b
  {
  }

  lemma CeilingMonotone(m: nat, n: nat, d: nat)
    requires d > 0 && m <= n
    ensures Ceiling(m, d) <= Ceiling(n, d)
  {
    CeilingIsLeast(m, d);
    CeilingIsLeast(n, d);
  }

  lemma CeilingFromQuotient(n: nat, d: nat, q: nat, r: nat)
    requires d > 0 && n == q * d + r && r < d
    ensures Ceiling(n, d) == if r == 0 then q else q + 1
  {
    var c := if r == 0 then q else q + 1;
    assert (q + 1) * d == q * d + d;
    assert (q - 1) * d == q * d - d;
    forall other: nat | n <= other * d ensures c <= other {
      if n > 0 { NoSmallerMultiple(n, c, d, other); }
    }
    CeilingIsUnique(c, n, d);
  }
}
