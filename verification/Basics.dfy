/** Shared vocabulary: optional values and sums over the rows of a table. */
module Basics {

  datatype Option<+T> = None | Some(value: T)

  ghost function Pick<K>(rows: set<K>): (k: K)
    requires rows != {}
    ensures k in rows
  {
    var k :| k in rows;
    k
  }

  /** The sum of a column over a finite set of rows. */
  ghost function Total<K(!new)>(rows: set<K>, column: K -> nat): nat {
    if rows == {} then 0 else
    var k :| k in rows;
    column(k) + Total(rows - {k}, column)
  }

  /** The sum does not depend on the order in which rows are taken. */
  lemma TotalRemove<K(!new)>(rows: set<K>, column: K -> nat, k: K)
    requires k in rows
    ensures Total(rows, column) == column(k) + Total(rows - {k}, column)
    decreases rows
  {
    var first :| first in rows && Total(rows, column) == column(first) + Total(rows - {first}, column);
    if first != k {
      TotalRemove(rows - {first}, column, k);
      TotalRemove(rows - {k}, column, first);
      assert rows - {first} - {k} == rows - {k} - {first};
    }
  }

  lemma TotalSame<K(!new)>(rows: set<K>, a: K -> nat, b: K -> nat)
    requires forall k <- rows :: a(k) == b(k)
    ensures Total(rows, a) == Total(rows, b)
    decreases rows
  {
    if rows != {} {
      var k :| k in rows;
      TotalSame(rows - {k}, a, b);
      TotalRemove(rows, a, k);
      TotalRemove(rows, b, k);
    }
  }

  /** Adding or rewriting one row changes the sum by the difference at that row. */
  lemma TotalChange<K(!new)>(before: set<K>, a: K -> nat, after: set<K>, b: K -> nat, k: K)
    requires after == before + {k}
    requires k !in before ==> a(k) == 0
    requires forall other <- before :: other != k ==> a(other) == b(other)
    ensures Total(after, b) == Total(before, a) - a(k) + b(k)
  {
    TotalRemove(after, b, k);
    assert after - {k} == before - {k};
    TotalSame(before - {k}, a, b);
    if k in before {
      TotalRemove(before, a, k);
    } else {
      assert before - {k} == before;
    }
  }

  lemma TotalZero<K(!new)>(rows: set<K>, column: K -> nat)
    requires forall k <- rows :: column(k) == 0
    ensures Total(rows, column) == 0
    decreases rows
  {
    if rows != {} {
      var k :| k in rows;
      TotalZero(rows - {k}, column);
      TotalRemove(rows, column, k);
    }
  }

  /** Rows whose column is zero do not count. */
  lemma TotalWiden<K(!new)>(rows: set<K>, wider: set<K>, column: K -> nat)
    requires rows <= wider
    requires forall k <- wider - rows :: column(k) == 0
    ensures Total(rows, column) == Total(wider, column)
    decreases rows
  {
    if rows == {} {
      TotalZero(wider, column);
    } else {
      var k :| k in rows;
      assert (wider - {k}) - (rows - {k}) == wider - rows;
      TotalWiden(rows - {k}, wider - {k}, column);
      TotalRemove(rows, column, k);
      TotalRemove(wider, column, k);
    }
  }

  /** Two columns added row by row. */
  lemma TotalPlus<K(!new)>(rows: set<K>, a: K -> nat, b: K -> nat, both: K -> nat)
    requires forall k <- rows :: both(k) == a(k) + b(k)
    ensures Total(rows, both) == Total(rows, a) + Total(rows, b)
    decreases rows
  {
    if rows != {} {
      var k :| k in rows;
      TotalPlus(rows - {k}, a, b, both);
      TotalRemove(rows, a, k);
      TotalRemove(rows, b, k);
      TotalRemove(rows, both, k);
    }
  }

  lemma TotalAtLeast<K(!new)>(rows: set<K>, column: K -> nat, k: K)
    requires k in rows
    ensures Total(rows, column) >= column(k)
  {
    TotalRemove(rows, column, k);
  }

  lemma Smaller<T>(a: set<T>, b: set<T>)
    requires a <= b
    ensures |a| <= |b|
  {
    assert b == a + (b - a);
  }
}
