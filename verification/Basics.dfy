/**
 Vocabulary shared by all the components: time in integer milliseconds, optional values,
 and the ordering that the stores use to pick "the first due row".
 */
module Basics {

  /** Milliseconds, as every durable timestamp column stores them. */
  type Time = int

  const SECOND: Time := 1000
  const MINUTE: Time := 60 * SECOND

  datatype Option<+T> = None | Some(value: T)

  function Min(a: int, b: int): int {
    if a <= b then a else b
  }

  function Max(a: int, b: int): int {
    if a <= b then b else a
  }

  /** The lexicographic sort key of an `ORDER BY` clause. */
  datatype Rank = Rank(first: int, second: int, third: int) {
    predicate Leq(other: Rank) {
      || first < other.first
      || (first == other.first &&
          (second < other.second || (second == other.second && third <= other.third)))
    }
  }

  /** `x` may be returned by a query over `rows` that sorts by `rank` and takes one row. */
  predicate IsFirst<T>(rows: set<T>, rank: T -> Rank, x: T) {
    x in rows && forall y | y in rows :: rank(x).Leq(rank(y))
  }

  lemma Member<T>(rows: set<T>) returns (x: T)
    requires rows != {}
    ensures x in rows
  {
    x :| x in rows;
  }

  lemma {:induction false} SubsetSize<T>(a: set<T>, b: set<T>)
    requires a <= b
    ensures |a| <= |b|
    decreases a
  {
    if x :| x in a {
      SubsetSize(a - {x}, b - {x});
    }
  }

  /** A query with at least one matching row returns a row. */
  lemma {:induction false} FirstExists<T>(rows: set<T>, rank: T -> Rank)
    requires rows != {}
    ensures exists x :: IsFirst(rows, rank, x)
  {
    var y :| y in rows;
    var rest := rows - {y};
    assert rows == rest + {y};
    if rest == {} {
      assert IsFirst(rows, rank, y);
    } else {
      FirstExists(rest, rank);
      var x :| IsFirst(rest, rank, x);
      assert IsFirst(rows, rank, if rank(x).Leq(rank(y)) then x else y);
    }
  }

  /** Runs such a query. */
  method QueryFirst<T(==)>(rows: set<T>, rank: T -> Rank) returns (x: T)
    requires rows != {}
    ensures IsFirst(rows, rank, x)
  {
    FirstExists(rows, rank);
    x :| IsFirst(rows, rank, x);
  }

  /** The integers `lo..hi`, of which there are `hi + 1 - lo`. */
  function Interval(lo: int, hi: int): (s: set<int>)
    ensures forall k :: k in s <==> lo <= k <= hi
    ensures lo <= hi + 1 ==> |s| == hi + 1 - lo
    decreases hi - lo
  {
    if hi < lo then {} else Interval(lo, hi - 1) + {hi}
  }
}
