/** Sequences as tables read them: pairwise different ids, a page of at most so many rows, and the rows an
    index query finds. */
module Sequences {

  predicate Distinct<T(==)>(ids: seq<T>) {
    forall i, j :: 0 <= i < j < |ids| ==> ids[i] != ids[j]
  }

  /** `.take(limit)`. */
  function Take<T>(rows: seq<T>, limit: nat): seq<T> {
    if |rows| <= limit then rows else rows[..limit]
  }

  /** The rows that match, in order. */
  function Select<T>(rows: seq<T>, matches: T -> bool): seq<T> {
    if rows == [] then []
    else Select(rows[..|rows| - 1], matches) + if matches(rows[|rows| - 1]) then [rows[|rows| - 1]] else []
  }

  lemma SelectSnoc<T>(rows: seq<T>, row: T, matches: T -> bool)
    ensures Select(rows + [row], matches) == Select(rows, matches) + if matches(row) then [row] else []
  {
    assert (rows + [row])[..|rows|] == rows;
  }

  lemma {:induction false} SelectMembers<T>(rows: seq<T>, matches: T -> bool)
    ensures forall row :: row in Select(rows, matches) <==> row in rows && matches(row)
  {
    if rows != [] {
      SelectMembers(rows[..|rows| - 1], matches);
      assert rows == rows[..|rows| - 1] + [rows[|rows| - 1]];
    }
  }

  function Mapped<T, U>(rows: seq<T>, f: T -> U): seq<U> {
    if rows == [] then [] else Mapped(rows[..|rows| - 1], f) + [f(rows[|rows| - 1])]
  }

  lemma MappedSnoc<T, U>(rows: seq<T>, row: T, f: T -> U)
    ensures Mapped(rows + [row], f) == Mapped(rows, f) + [f(row)]
  {
    assert (rows + [row])[..|rows|] == rows;
  }

  /** Selecting mapped rows is mapping the selected ones. */
  lemma {:induction false} SelectMapped<T, U>(rows: seq<T>, f: T -> U, here: T -> bool, there: U -> bool)
    requires forall r :: there(f(r)) <==> here(r)
    ensures Select(Mapped(rows, f), there) == Mapped(Select(rows, here), f)
  {
    if rows != [] {
      var front, last := rows[..|rows| - 1], rows[|rows| - 1];
      SelectMapped(front, f, here, there);
      SelectSnoc(Mapped(front, f), f(last), there);
      assert rows == front + [last];
      SelectSnoc(front, last, here);
      if here(last) {
        MappedSnoc(Select(front, here), last, f);
      } else {
        assert Select(rows, here) == Select(front, here);
      }
    }
  }
}
