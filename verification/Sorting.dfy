/** Stable insertion sort by a "not after" relation, as the standard sort does. */
module Sorting {

  ghost predicate TotalPreorder<T(!new)>(le: (T, T) -> bool) {
    (forall a, b :: le(a, b) || le(b, a)) && (forall a, b, c :: le(a, b) && le(b, c) ==> le(a, c))
  }

  ghost predicate Sorted<T>(rows: seq<T>, le: (T, T) -> bool) {
    forall i, j :: 0 <= i < j < |rows| ==> le(rows[i], rows[j])
  }

  /** After the rows it does not precede. */
  function Insert<T>(rows: seq<T>, x: T, le: (T, T) -> bool): seq<T> {
    if rows == [] || le(rows[|rows| - 1], x) then rows + [x]
    else Insert(rows[..|rows| - 1], x, le) + [rows[|rows| - 1]]
  }

  function Sort<T>(rows: seq<T>, le: (T, T) -> bool): seq<T> {
    if rows == [] then [] else Insert(Sort(rows[..|rows| - 1], le), rows[|rows| - 1], le)
  }

  lemma {:induction false} InsertSorts<T(!new)>(rows: seq<T>, x: T, le: (T, T) -> bool)
    requires TotalPreorder(le) && Sorted(rows, le)
    ensures Sorted(Insert(rows, x, le), le)
    ensures multiset(Insert(rows, x, le)) == multiset(rows) + multiset{x}
  {
    if rows == [] {
    } else if le(rows[|rows| - 1], x) {
      AppendSorted(rows, x, le);
    } else {
      var init, last := rows[..|rows| - 1], rows[|rows| - 1];
      InsertSorts(init, x, le);
      assert le(x, last) && rows == init + [last];
      AppendLast(init, Insert(init, x, le), x, last, le);
    }
  }

  lemma AppendLast<T(!new)>(init: seq<T>, front: seq<T>, x: T, last: T, le: (T, T) -> bool)
    requires Sorted(init + [last], le) && le(x, last)
    requires Sorted(front, le) && multiset(front) == multiset(init) + multiset{x}
    ensures Sorted(front + [last], le)
  {
    forall i | 0 <= i < |front| ensures le(front[i], last) {
      assert front[i] in multiset(front);
      if k :| 0 <= k < |init| && init[k] == front[i] {
        assert le((init + [last])[k], (init + [last])[|init|]);
      }
    }
  }

  lemma AppendSorted<T(!new)>(rows: seq<T>, x: T, le: (T, T) -> bool)
    requires TotalPreorder(le) && Sorted(rows, le) && rows != [] && le(rows[|rows| - 1], x)
    ensures Sorted(rows + [x], le)
  {
    var last := rows[|rows| - 1];
    forall i | 0 <= i < |rows| ensures le(rows[i], x) {
      assert i < |rows| - 1 ==> le(rows[i], last);
    }
  }

  lemma {:induction false} SortSorts<T(!new)>(rows: seq<T>, le: (T, T) -> bool)
    requires TotalPreorder(le)
    ensures Sorted(Sort(rows, le), le)
    ensures multiset(Sort(rows, le)) == multiset(rows)
    ensures |Sort(rows, le)| == |rows|
  {
    if rows != [] {
      var init, last := rows[..|rows| - 1], rows[|rows| - 1];
      SortSorts(init, le);
      InsertSorts(Sort(init, le), last, le);
      assert rows == init + [last];
    }
    assert |multiset(Sort(rows, le))| == |Sort(rows, le)|;
  }

  function Image<T, U>(rows: seq<T>, f: T -> U): seq<U> {
    seq(|rows|, i requires 0 <= i < |rows| => f(rows[i]))
  }

  lemma ImageOfConcat<T, U>(rows: seq<T>, others: seq<T>, f: T -> U)
    ensures Image(rows + others, f) == Image(rows, f) + Image(others, f)
  {
  }

  lemma SameImage<T, S, U>(rows: seq<T>, others: seq<S>, f: T -> U, g: S -> U)
    requires |rows| == |others| && forall i :: 0 <= i < |rows| ==> f(rows[i]) == g(others[i])
    ensures Image(rows, f) == Image(others, g)
  {
  }

  lemma ImageOfAppend<T, U>(rows: seq<T>, x: T, f: T -> U)
    ensures Image(rows + [x], f) == Image(rows, f) + [f(x)]
  {
  }

  lemma {:induction false} InsertKeepsImage<T, U>(rows: seq<T>, x: T, le: (T, T) -> bool, f: T -> U)
    ensures multiset(Image(Insert(rows, x, le), f)) == multiset(Image(rows, f)) + multiset{f(x)}
  {
    if rows == [] || le(rows[|rows| - 1], x) {
      ImageOfAppend(rows, x, f);
    } else {
      var init, last := rows[..|rows| - 1], rows[|rows| - 1];
      InsertKeepsImage(init, x, le, f);
      assert rows == init + [last];
      ImageOfAppend(init, last, f);
      ImageOfAppend(Insert(init, x, le), last, f);
    }
  }

  /** Sorting rows keeps what they say, whatever the order. */
  lemma {:induction false} SortKeepsImage<T, U>(rows: seq<T>, le: (T, T) -> bool, f: T -> U)
    ensures multiset(Image(Sort(rows, le), f)) == multiset(Image(rows, f))
  {
    if rows != [] {
      var init, last := rows[..|rows| - 1], rows[|rows| - 1];
      SortKeepsImage(init, le, f);
      InsertKeepsImage(Sort(init, le), last, le, f);
      assert rows == init + [last];
      ImageOfAppend(init, last, f);
    }
  }
}
