/** Sums of a weight over the rows of a table, from the oldest row on. */
module Sums {

  function Sum<T>(rows: seq<T>, weight: T -> int): int {
    if rows == [] then 0 else Sum(rows[..|rows| - 1], weight) + weight(rows[|rows| - 1])
  }

  lemma SumAppend<T>(rows: seq<T>, weight: T -> int, row: T)
    ensures Sum(rows + [row], weight) == Sum(rows, weight) + weight(row)
  {
    assert (rows + [row])[..|rows|] == rows;
  }

  lemma {:induction false} SumUpdate<T>(rows: seq<T>, weight: T -> int, i: nat, row: T)
    requires i < |rows|
    ensures Sum(rows[i := row], weight) == Sum(rows, weight) - weight(rows[i]) + weight(row)
  {
    var last := |rows| - 1;
    if i == last {
      assert rows[i := row][..last] == rows[..last];
    } else {
      assert rows[i := row][..last] == rows[..last][i := row];
      SumUpdate(rows[..last], weight, i, row);
    }
  }

  lemma {:induction false} SumNonNegative<T>(rows: seq<T>, weight: T -> int)
    requires forall i :: 0 <= i < |rows| ==> weight(rows[i]) >= 0
    ensures Sum(rows, weight) >= 0
  {
    if rows != [] {
      SumNonNegative(rows[..|rows| - 1], weight);
    }
  }

  /** Rows may be added, and each one may weigh more than before. */
  lemma {:induction false} SumMonotone<T>(rows: seq<T>, later: seq<T>, weight: T -> int, heavier: T -> int)
    requires |rows| <= |later|
    requires forall i :: 0 <= i < |rows| ==> weight(rows[i]) <= heavier(later[i])
    requires forall i :: |rows| <= i < |later| ==> heavier(later[i]) >= 0
    ensures Sum(rows, weight) <= Sum(later, heavier)
  {
    if later != [] {
      var n := |later| - 1;
      if |rows| <= n {
        SumMonotone(rows, later[..n], weight, heavier);
      } else {
        SumMonotone(rows[..n], later[..n], weight, heavier);
      }
    }
  }

  lemma {:induction false} SumZero<T>(rows: seq<T>, weight: T -> int)
    requires forall i :: 0 <= i < |rows| ==> weight(rows[i]) == 0
    ensures Sum(rows, weight) == 0
  {
    if rows != [] {
      SumZero(rows[..|rows| - 1], weight);
    }
  }

  lemma {:induction false} SumPointwise<T>(rows: seq<T>, a: T -> int, b: T -> int, c: T -> int)
    requires forall i :: 0 <= i < |rows| ==> a(rows[i]) + b(rows[i]) == c(rows[i])
    ensures Sum(rows, a) + Sum(rows, b) == Sum(rows, c)
  {
    if rows != [] {
      SumPointwise(rows[..|rows| - 1], a, b, c);
    }
  }
}
