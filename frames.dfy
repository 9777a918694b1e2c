/**
 * The DataFrame operations the analytics agent uses, over a sequence of rows:
 * the sum and mean of a column, a boolean-mask selection, and
 * `nlargest(n, column)` with pandas' default `keep='first'`.
 */
module Frames {

  /** `df[column].sum()`. */
  function Sum<T>(rows: seq<T>, column: T -> real): real {
    if rows == [] then 0.0 else Sum(rows[..|rows| - 1], column) + column(rows[|rows| - 1])
  }

  /** `df[column].mean()` on a non-empty frame. */
  function Mean<T>(rows: seq<T>, column: T -> real): real
    requires |rows| > 0
  {
    Sum(rows, column) / (|rows| as real)
  }

  /** `df[mask]`: the rows satisfying `keep`, in frame order. */
  function Select<T>(rows: seq<T>, keep: T -> bool): seq<T> {
    if rows == [] then []
    else
      var last := rows[|rows| - 1];
      Select(rows[..|rows| - 1], keep) + (if keep(last) then [last] else [])
  }

  /** Index of the first row with the largest value in `column`. */
  function ArgMax<T>(rows: seq<T>, column: T -> real): (i: nat)
    requires |rows| > 0
    ensures i < |rows|
    ensures forall j :: 0 <= j < |rows| ==> column(rows[j]) <= column(rows[i])
    ensures forall j :: 0 <= j < i ==> column(rows[j]) < column(rows[i])
  {
    if |rows| == 1 then 0
    else
      var k := ArgMax(rows[1..], column);
      assert forall j :: 1 <= j < |rows| ==> rows[j] == rows[1..][j - 1];
      if column(rows[0]) >= column(rows[1 + k]) then 0 else 1 + k
  }

  /** `rows` without the row at index `i`. */
  function Remove<T>(rows: seq<T>, i: nat): (r: seq<T>)
    requires i < |rows|
    ensures |r| == |rows| - 1
  {
    rows[..i] + rows[i + 1..]
  }

  /** Removing a row takes exactly one occurrence of it out of the frame. */
  lemma RemoveCount<T>(rows: seq<T>, i: nat)
    requires i < |rows|
    ensures multiset(Remove(rows, i)) + multiset{rows[i]} == multiset(rows)
  {
    assert rows == rows[..i] + [rows[i]] + rows[i + 1..];
  }

  /** Values of `column` never increase along `rows`. */
  ghost predicate Descending<T>(rows: seq<T>, column: T -> real) {
    forall i, j :: 0 <= i < j < |rows| ==> column(rows[i]) >= column(rows[j])
  }

  /**
   * `nlargest(n, column)`: up to `n` rows by descending `column`; among equal
   * values the one that comes first in the frame is taken first.
   */
  function NLargest<T>(rows: seq<T>, n: nat, column: T -> real): seq<T>
    decreases n
  {
    if n == 0 || |rows| == 0 then []
    else
      var i := ArgMax(rows, column);
      [rows[i]] + NLargest(Remove(rows, i), n - 1, column)
  }

  // ---------------------------------------------------------------------------
  // Properties of the selections.

  /** A selection keeps exactly the rows satisfying the mask, each as often as it occurs. */
  lemma {:induction false} SelectCount<T>(rows: seq<T>, keep: T -> bool, x: T)
    ensures multiset(Select(rows, keep))[x] == if keep(x) then multiset(rows)[x] else 0
  {
    if rows != [] {
      var init := rows[..|rows| - 1];
      SelectCount(init, keep, x);
      assert rows == init + [rows[|rows| - 1]];
    }
  }

  /** A selection distributes over concatenation, so it keeps frame order. */
  lemma {:induction false} SelectAppend<T>(a: seq<T>, b: seq<T>, keep: T -> bool)
    ensures Select(a + b, keep) == Select(a, keep) + Select(b, keep)
    decreases |b|
  {
    if b == [] {
      assert a + b == a;
    } else {
      var b' := b[..|b| - 1];
      assert (a + b)[..|a + b| - 1] == a + b';
      SelectAppend(a, b', keep);
    }
  }

  /** Every selected row satisfies the mask and comes from the frame. */
  lemma SelectSound<T>(rows: seq<T>, keep: T -> bool)
    ensures forall x :: x in Select(rows, keep) ==> keep(x) && x in rows
  {
    forall x | x in Select(rows, keep)
      ensures keep(x) && x in rows
    {
      SelectCount(rows, keep, x);
      assert multiset(Select(rows, keep))[x] > 0;
    }
  }

  /** `nlargest(n)` returns `n` rows, or every row when the frame has fewer. */
  lemma {:induction false} NLargestLength<T>(rows: seq<T>, n: nat, column: T -> real)
    ensures |NLargest(rows, n, column)| == if n < |rows| then n else |rows|
    decreases n
  {
    if n != 0 && |rows| != 0 {
      NLargestLength(Remove(rows, ArgMax(rows, column)), n - 1, column);
    }
  }

  /** `nlargest` returns rows of the frame, each at most as often as it occurs there. */
  lemma {:induction false} NLargestBounds<T>(rows: seq<T>, n: nat, column: T -> real)
    ensures multiset(NLargest(rows, n, column)) <= multiset(rows)
    decreases n
  {
    if n != 0 && |rows| != 0 {
      var i := ArgMax(rows, column);
      var rest := Remove(rows, i);
      var tail := NLargest(rest, n - 1, column);
      NLargestBounds(rest, n - 1, column);
      RemoveCount(rows, i);
      assert NLargest(rows, n, column) == [rows[i]] + tail;
    }
  }

  /** The rows of `Remove(rows, i)`, position by position. */
  lemma RemoveAt<T>(rows: seq<T>, i: nat)
    requires i < |rows|
    ensures forall k :: 0 <= k < |rows| - 1 ==> Remove(rows, i)[k] == if k < i then rows[k] else rows[k + 1]
  {
    var r := Remove(rows, i);
    forall k | 0 <= k < |rows| - 1
      ensures r[k] == if k < i then rows[k] else rows[k + 1]
    {
      if k < i {
        assert r[k] == rows[..i][k];
      } else {
        assert r[k] == rows[i + 1..][k - i];
      }
    }
  }

  /** A bound on the column of every row of the frame bounds every row `nlargest` returns. */
  lemma {:induction false} NLargestBelow<T>(rows: seq<T>, n: nat, column: T -> real, bound: real)
    requires forall k :: 0 <= k < |rows| ==> column(rows[k]) <= bound
    ensures forall k :: 0 <= k < |NLargest(rows, n, column)| ==> column(NLargest(rows, n, column)[k]) <= bound
    decreases n
  {
    if n != 0 && |rows| != 0 {
      var i := ArgMax(rows, column);
      var rest := Remove(rows, i);
      RemoveAt(rows, i);
      assert forall k :: 0 <= k < |rest| ==> column(rest[k]) <= bound;
      NLargestBelow(rest, n - 1, column, bound);
      var tail := NLargest(rest, n - 1, column);
      var r := [rows[i]] + tail;
      assert NLargest(rows, n, column) == r;
      forall k | 0 <= k < |r|
        ensures column(r[k]) <= bound
      {
        if k > 0 {
          assert r[k] == tail[k - 1];
        }
      }
    }
  }

  /** Every row `nlargest` returns is a row of the frame. */
  lemma {:induction false} NLargestIn<T>(rows: seq<T>, n: nat, column: T -> real)
    ensures forall k :: 0 <= k < |NLargest(rows, n, column)| ==> NLargest(rows, n, column)[k] in rows
    decreases n
  {
    if n != 0 && |rows| != 0 {
      var i := ArgMax(rows, column);
      var rest := Remove(rows, i);
      RemoveAt(rows, i);
      NLargestIn(rest, n - 1, column);
      var tail := NLargest(rest, n - 1, column);
      var r := [rows[i]] + tail;
      assert NLargest(rows, n, column) == r;
      forall k | 0 <= k < |r|
        ensures r[k] in rows
      {
        if k > 0 {
          assert r[k] == tail[k - 1];
          var m :| 0 <= m < |rest| && rest[m] == tail[k - 1];
          assert rest[m] == if m < i then rows[m] else rows[m + 1];
        }
      }
    }
  }

  /** `nlargest` is ordered by descending `column`. */
  lemma {:induction false} NLargestDescending<T>(rows: seq<T>, n: nat, column: T -> real)
    ensures Descending(NLargest(rows, n, column), column)
    decreases n
  {
    if n != 0 && |rows| != 0 {
      var i := ArgMax(rows, column);
      var rest := Remove(rows, i);
      var tail := NLargest(rest, n - 1, column);
      NLargestDescending(rest, n - 1, column);
      RemoveAt(rows, i);
      NLargestBelow(rest, n - 1, column, column(rows[i]));
      var r := [rows[i]] + tail;
      assert NLargest(rows, n, column) == r;
      forall a, b | 0 <= a < b < |r|
        ensures column(r[a]) >= column(r[b])
      {
        assert r[b] == tail[b - 1];
        if a > 0 {
          assert r[a] == tail[a - 1];
        }
      }
    }
  }

  /** No row left out of `nlargest` has a larger `column` than a row it returns. */
  lemma {:induction false} NLargestDominates<T>(rows: seq<T>, n: nat, column: T -> real, x: T, y: T)
    requires x in multiset(rows) - multiset(NLargest(rows, n, column))
    requires y in NLargest(rows, n, column)
    ensures column(x) <= column(y)
    decreases n
  {
    var i := ArgMax(rows, column);
    var rest := Remove(rows, i);
    var tail := NLargest(rest, n - 1, column);
    assert NLargest(rows, n, column) == [rows[i]] + tail;
    assert x in multiset(rows);
    if y == rows[i] {
    } else {
      assert y in tail;
      RemoveCount(rows, i);
      assert multiset(NLargest(rows, n, column)) == multiset{rows[i]} + multiset(tail);
      assert x in multiset(rest) - multiset(tail);
      NLargestDominates(rest, n - 1, column, x, y);
    }
  }

  /** A column that is never negative has a non-negative sum, zero only when every value is zero. */
  lemma {:induction false} SumNonNegative<T>(rows: seq<T>, column: T -> real)
    requires forall i :: 0 <= i < |rows| ==> column(rows[i]) >= 0.0
    ensures Sum(rows, column) >= 0.0
    ensures Sum(rows, column) == 0.0 <==> forall i :: 0 <= i < |rows| ==> column(rows[i]) == 0.0
  {
    if rows != [] {
      var init := rows[..|rows| - 1];
      SumNonNegative(init, column);
      assert forall i :: 0 <= i < |init| ==> init[i] == rows[i];
    }
  }
}
