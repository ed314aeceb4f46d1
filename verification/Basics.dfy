// Small shared vocabulary: optional values, results, and the row filters and
// row sums in which the database invariants are phrased.
module Basics {

  datatype Option<+T> = None | Some(value: T)

  datatype Result<+T, +E> = Ok(value: T) | Err(error: E)

  function OrElse<T>(o: Option<T>, fallback: T): T {
    if o.Some? then o.value else fallback
  }

  /** The rows that satisfy p, in their original order. */
  function Where<T>(rows: seq<T>, p: T -> bool): seq<T> {
    if rows == [] then []
    else
      var n := |rows| - 1;
      Where(rows[..n], p) + if p(rows[n]) then [rows[n]] else []
  }

  /** The sum of a measure over all rows. */
  function SumOf<T>(rows: seq<T>, f: T -> int): int {
    if rows == [] then 0
    else
      var n := |rows| - 1;
      SumOf(rows[..n], f) + f(rows[n])
  }

  lemma {:induction false} WhereAppend<T>(a: seq<T>, b: seq<T>, p: T -> bool)
    ensures Where(a + b, p) == Where(a, p) + Where(b, p)
  {
    if b == [] {
      assert a + b == a;
    } else {
      var n := |b| - 1;
      assert (a + b)[..|a| + n] == a + b[..n];
      WhereAppend(a, b[..n], p);
    }
  }

  lemma {:induction false} SumAppend<T>(a: seq<T>, b: seq<T>, f: T -> int)
    ensures SumOf(a + b, f) == SumOf(a, f) + SumOf(b, f)
  {
    if b == [] {
      assert a + b == a;
    } else {
      var n := |b| - 1;
      assert (a + b)[..|a| + n] == a + b[..n];
      SumAppend(a, b[..n], f);
    }
  }

  lemma {:induction false} WhereNone<T>(rows: seq<T>, p: T -> bool)
    requires forall x :: x in rows ==> !p(x)
    ensures Where(rows, p) == []
  {
    if rows != [] {
      assert rows[|rows| - 1] in rows;
      WhereNone(rows[..|rows| - 1], p);
    }
  }

  lemma {:induction false} WhereAll<T>(rows: seq<T>, p: T -> bool)
    requires forall x :: x in rows ==> p(x)
    ensures Where(rows, p) == rows
  {
    if rows != [] {
      assert rows[|rows| - 1] in rows;
      WhereAll(rows[..|rows| - 1], p);
      assert rows == rows[..|rows| - 1] + [rows[|rows| - 1]];
    }
  }

  lemma {:induction false} WhereMember<T>(rows: seq<T>, p: T -> bool)
    ensures forall x :: x in Where(rows, p) <==> x in rows && p(x)
  {
    if rows != [] {
      var n := |rows| - 1;
      WhereMember(rows[..n], p);
      assert rows == rows[..n] + [rows[n]];
    }
  }

  /** Appending rows that all fail p leaves the filtered table as it was. */
  lemma WhereFrame<T>(a: seq<T>, b: seq<T>, p: T -> bool)
    requires forall x :: x in b ==> !p(x)
    ensures Where(a + b, p) == Where(a, p)
  {
    WhereAppend(a, b, p);
    WhereNone(b, p);
  }

  /** Appending rows that all satisfy p to a table without any yields exactly those rows. */
  lemma WhereFresh<T>(a: seq<T>, b: seq<T>, p: T -> bool)
    requires forall x :: x in a ==> !p(x)
    requires forall x :: x in b ==> p(x)
    ensures Where(a + b, p) == b
  {
    WhereAppend(a, b, p);
    WhereNone(a, p);
    WhereAll(b, p);
  }

  lemma {:induction false} SumZero<T>(rows: seq<T>, f: T -> int)
    requires forall x :: x in rows ==> f(x) == 0
    ensures SumOf(rows, f) == 0
  {
    if rows != [] {
      assert rows[|rows| - 1] in rows;
      SumZero(rows[..|rows| - 1], f);
    }
  }

  lemma {:induction false} SumSame<T>(rows: seq<T>, f: T -> int, g: T -> int)
    requires forall x :: x in rows ==> f(x) == g(x)
    ensures SumOf(rows, f) == SumOf(rows, g)
  {
    if rows != [] {
      assert rows[|rows| - 1] in rows;
      SumSame(rows[..|rows| - 1], f, g);
    }
  }

  lemma {:induction false} WhereSame<T>(rows: seq<T>, p: T -> bool, q: T -> bool)
    requires forall x :: x in rows ==> (p(x) <==> q(x))
    ensures Where(rows, p) == Where(rows, q)
  {
    if rows != [] {
      assert rows[|rows| - 1] in rows;
      WhereSame(rows[..|rows| - 1], p, q);
    }
  }

  lemma WherePush<T>(a: seq<T>, x: T, p: T -> bool)
    ensures Where(a + [x], p) == Where(a, p) + if p(x) then [x] else []
  {
    assert (a + [x])[..|a|] == a;
  }

  lemma SumPush<T>(a: seq<T>, x: T, f: T -> int)
    ensures SumOf(a + [x], f) == SumOf(a, f) + f(x)
  {
    assert (a + [x])[..|a|] == a;
  }

  /** Python's int() on a hundredths amount: whole units, truncated toward zero. */
  function WholeUnits(cents: int): int {
    if cents >= 0 then cents / 100 else -((-cents) / 100)
  }
}
