/** Rows numbered per lane: the n-th row of a lane, in the order of insertion, carries the number n.
    The next number is read off the table as the lane's maximum plus one. */
module Numbering {
  import opened Prelude
  import opened Ordering

  /** The largest number in a lane, zero when the lane is empty. */
  function Top<T>(rows: seq<T>, lane: T -> nat, number: T -> nat, x: nat): nat {
    if rows == [] then 0
    else
      var last, rest := rows[|rows| - 1], Top(rows[..|rows| - 1], lane, number, x);
      if lane(last) == x then Max(number(last), rest) else rest
  }

  function Count<T>(rows: seq<T>, lane: T -> nat, x: nat): nat {
    if rows == [] then 0 else Count(rows[..|rows| - 1], lane, x) + if lane(rows[|rows| - 1]) == x then 1 else 0
  }

  /** Row `i` counts the rows of its lane before it, and itself. */
  predicate NumberedAt<T>(rows: seq<T>, lane: T -> nat, number: T -> nat, i: nat)
    requires i < |rows|
  {
    number(rows[i]) == Count(rows[..i], lane, lane(rows[i])) + 1
  }

  ghost predicate Numbered<T(!new)>(rows: seq<T>, lane: T -> nat, number: T -> nat) {
    forall i: nat :: i < |rows| ==> NumberedAt(rows, lane, number, i)
  }

  lemma {:induction false} CountOfPrefix<T(!new)>(rows: seq<T>, i: nat, lane: T -> nat, x: nat)
    requires i <= |rows|
    ensures Count(rows[..i], lane, x) <= Count(rows, lane, x)
    decreases |rows|
  {
    if i < |rows| {
      assert rows[..|rows| - 1][..i] == rows[..i];
      CountOfPrefix(rows[..|rows| - 1], i, lane, x);
    } else {
      assert rows[..i] == rows;
    }
  }

  lemma {:induction false} CountOfSameLanes<T(!new)>(a: seq<T>, b: seq<T>, lane: T -> nat, x: nat)
    requires |a| == |b|
    requires forall i :: 0 <= i < |a| ==> lane(a[i]) == lane(b[i])
    ensures Count(a, lane, x) == Count(b, lane, x)
  {
    if a != [] {
      CountOfSameLanes(a[..|a| - 1], b[..|b| - 1], lane, x);
    }
  }

  /** Within a lane, later rows carry larger numbers. */
  lemma LaneAscends<T(!new)>(rows: seq<T>, lane: T -> nat, number: T -> nat, i: nat, j: nat)
    requires Numbered(rows, lane, number)
    requires i < j < |rows| && lane(rows[i]) == lane(rows[j])
    ensures number(rows[i]) < number(rows[j])
  {
    assert NumberedAt(rows, lane, number, i) && NumberedAt(rows, lane, number, j);
    var upTo := rows[..i + 1];
    assert upTo[..|upTo| - 1] == rows[..i];
    assert rows[..j][..i + 1] == upTo;
    CountOfPrefix(rows[..j], i + 1, lane, lane(rows[i]));
  }

  lemma NumbersTellApart<T(!new)>(rows: seq<T>, lane: T -> nat, number: T -> nat, a: T, b: T)
    requires Numbered(rows, lane, number)
    requires a in rows && b in rows && a != b && lane(a) == lane(b)
    ensures number(a) != number(b)
  {
    var i :| 0 <= i < |rows| && rows[i] == a;
    var j :| 0 <= j < |rows| && rows[j] == b;
    if i < j { LaneAscends(rows, lane, number, i, j); } else { LaneAscends(rows, lane, number, j, i); }
  }

  lemma FrontIsNumbered<T(!new)>(rows: seq<T>, lane: T -> nat, number: T -> nat)
    requires Numbered(rows, lane, number) && rows != []
    ensures Numbered(rows[..|rows| - 1], lane, number)
  {
    var front := rows[..|rows| - 1];
    forall i: nat | i < |front| ensures NumberedAt(front, lane, number, i) {
      assert NumberedAt(rows, lane, number, i);
      assert front[..i] == rows[..i];
    }
  }

  lemma {:induction false} TopIsCount<T(!new)>(rows: seq<T>, lane: T -> nat, number: T -> nat, x: nat)
    requires Numbered(rows, lane, number)
    ensures Top(rows, lane, number, x) == Count(rows, lane, x)
  {
    if rows != [] {
      assert NumberedAt(rows, lane, number, |rows| - 1);
      FrontIsNumbered(rows, lane, number);
      TopIsCount(rows[..|rows| - 1], lane, number, x);
    }
  }

  /** Maximum plus one is the next number of the lane. */
  lemma AppendNumbered<T(!new)>(rows: seq<T>, lane: T -> nat, number: T -> nat, row: T)
    requires Numbered(rows, lane, number)
    requires number(row) == Top(rows, lane, number, lane(row)) + 1
    ensures Numbered(rows + [row], lane, number)
  {
    TopIsCount(rows, lane, number, lane(row));
    var more := rows + [row];
    forall i: nat | i < |more| ensures NumberedAt(more, lane, number, i) {
      assert i < |rows| ==> NumberedAt(rows, lane, number, i);
      assert more[..i] == rows[..i];
      assert rows[..|rows|] == rows;
    }
  }

  /** Changing rows without touching their lanes and numbers keeps the numbering. */
  lemma RewriteNumbered<T(!new)>(rows: seq<T>, now: seq<T>, lane: T -> nat, number: T -> nat)
    requires Numbered(rows, lane, number) && |now| == |rows|
    requires forall i :: 0 <= i < |rows| ==> lane(now[i]) == lane(rows[i]) && number(now[i]) == number(rows[i])
    ensures Numbered(now, lane, number)
  {
    forall i: nat | i < |now| ensures NumberedAt(now, lane, number, i) {
      assert NumberedAt(rows, lane, number, i);
      CountOfSameLanes(rows[..i], now[..i], lane, lane(rows[i]));
    }
  }

  function InLane<T>(lane: T -> nat, x: nat): T -> bool {
    (r: T) => lane(r) == x
  }

  lemma {:induction false} LaneLength<T(!new)>(rows: seq<T>, lane: T -> nat, x: nat)
    ensures |Filter(rows, InLane(lane, x))| == Count(rows, lane, x)
  {
    if rows != [] {
      FilterLast(rows, InLane(lane, x));
      LaneLength(rows[..|rows| - 1], lane, x);
    }
  }

  /** The rows of a lane, in the order of insertion, are numbered 1, 2, 3 and so on. */
  lemma {:induction false} LaneRunsFromOne<T(!new)>(rows: seq<T>, lane: T -> nat, number: T -> nat, x: nat, k: nat)
    requires Numbered(rows, lane, number)
    requires k < |Filter(rows, InLane(lane, x))|
    ensures number(Filter(rows, InLane(lane, x))[k]) == k + 1
  {
    var front := rows[..|rows| - 1];
    FilterLast(rows, InLane(lane, x));
    assert rows != [] ==> NumberedAt(rows, lane, number, |rows| - 1);
    LaneLength(front, lane, x);
    if k < |Filter(front, InLane(lane, x))| {
      FrontIsNumbered(rows, lane, number);
      LaneRunsFromOne(front, lane, number, x, k);
    }
  }
}
