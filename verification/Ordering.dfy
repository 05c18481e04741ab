/** The library sorts used by the source (`sort`, `sort_by`, ordered sets), with the
    one fact every caller relies on: a sorted arrangement whose keys are distinct is unique. */
module Ordering {

  /** Sort keys are compared by the first part and then by the second. */
  type Key = (int, int)

  predicate Less(a: Key, b: Key) {
    a.0 < b.0 || (a.0 == b.0 && a.1 < b.1)
  }

  ghost predicate Sorted<T(!new)>(s: seq<T>, key: T -> Key) {
    forall i, j :: 0 <= i < j < |s| ==> !Less(key(s[j]), key(s[i]))
  }

  function Insert<T>(x: T, s: seq<T>, key: T -> Key): (r: seq<T>)
    ensures multiset(r) == multiset(s) + multiset{x}
  {
    if s == [] || !Less(key(s[0]), key(x)) then [x] + s
    else
      assert s == [s[0]] + s[1..];
      [s[0]] + Insert(x, s[1..], key)
  }

  lemma {:induction false} InsertKeepsSorted<T(!new)>(x: T, s: seq<T>, key: T -> Key)
    requires Sorted(s, key)
    ensures Sorted(Insert(x, s, key), key)
  {
    if s != [] && Less(key(s[0]), key(x)) {
      InsertKeepsSorted(x, s[1..], key);
      var t := Insert(x, s[1..], key);
      forall j | 0 <= j < |t| ensures !Less(key(t[j]), key(s[0])) {
        assert t[j] in multiset(t);
        assert t[j] == x || t[j] in s[1..];
      }
    }
  }

  /** A stable sort: earlier elements stay in front of later ones with an equal key. */
  function SortBy<T(!new)>(s: seq<T>, key: T -> Key): (r: seq<T>)
    ensures multiset(r) == multiset(s)
    ensures Sorted(r, key)
  {
    if s == [] then []
    else
      assert s == [s[0]] + s[1..];
      InsertKeepsSorted(s[0], SortBy(s[1..], key), key);
      Insert(s[0], SortBy(s[1..], key), key)
  }

  /** Rearrangements have the same members and the same length. */
  lemma RearrangementMembers<T>(a: seq<T>, b: seq<T>)
    requires multiset(a) == multiset(b)
    ensures |a| == |b|
    ensures forall x :: x in a <==> x in b
  {
    assert |multiset(a)| == |a| && |multiset(b)| == |b|;
    forall x ensures x in a <==> x in b {
      assert x in a <==> x in multiset(a);
      assert x in b <==> x in multiset(b);
    }
  }

  lemma HeadsAgree<T(!new)>(a: seq<T>, b: seq<T>, key: T -> Key)
    requires a != [] && b != [] && a[0] in b && b[0] in a
    requires Sorted(a, key) && Sorted(b, key)
    ensures key(a[0]) == key(b[0])
  {
  }

  lemma TailsAgree<T>(a: seq<T>, b: seq<T>)
    requires a != [] && b != [] && a[0] == b[0] && multiset(a) == multiset(b)
    ensures multiset(a[1..]) == multiset(b[1..])
  {
    assert a == [a[0]] + a[1..] && b == [b[0]] + b[1..];
    assert multiset(a[1..]) == multiset(a) - multiset{a[0]};
    assert multiset(b[1..]) == multiset(b) - multiset{b[0]};
  }

  /** Only one sorted arrangement exists when every member has its own key. */
  lemma {:induction false} SortedUnique<T(!new)>(a: seq<T>, b: seq<T>, key: T -> Key)
    requires multiset(a) == multiset(b)
    requires Sorted(a, key) && Sorted(b, key)
    requires forall x, y :: x in a && y in a && key(x) == key(y) ==> x == y
    ensures a == b
  {
    RearrangementMembers(a, b);
    if a != [] {
      HeadsAgree(a, b, key);
      TailsAgree(a, b);
      SortedUnique(a[1..], b[1..], key);
      assert a == [a[0]] + a[1..] && b == [b[0]] + b[1..];
    }
  }

  /** Sorting forgets the order in which the members arrived. */
  lemma SortForgetsOrder<T(!new)>(a: seq<T>, b: seq<T>, key: T -> Key)
    requires multiset(a) == multiset(b)
    requires forall x, y :: x in a && y in a && key(x) == key(y) ==> x == y
    ensures SortBy(a, key) == SortBy(b, key)
  {
    RearrangementMembers(SortBy(a, key), a);
    SortedUnique(SortBy(a, key), SortBy(b, key), key);
  }

  lemma OnceMeansDistinct<T>(s: seq<T>, i: nat, j: nat)
    requires i < j < |s|
    requires multiset(s)[s[i]] <= 1
    ensures s[i] != s[j]
  {
    assert s == s[..j] + s[j..];
    assert s[i] in multiset(s[..j]) && s[j] in multiset(s[j..]);
    assert multiset(s)[s[i]] == multiset(s[..j])[s[i]] + multiset(s[j..])[s[i]];
  }

  lemma OnlyOnce<T>(s: seq<T>, k: nat)
    requires k < |s| && forall i :: 0 <= i < |s| && i != k ==> s[i] != s[k]
    ensures multiset(s)[s[k]] == 1
  {
    assert s == s[..k] + [s[k]] + s[k + 1..];
    assert s[k] !in s[..k] && s[k] !in s[k + 1..];
  }

  ghost predicate StrictlySorted<T(!new)>(s: seq<T>, key: T -> Key) {
    forall i, j :: 0 <= i < j < |s| ==> Less(key(s[i]), key(s[j]))
  }

  ghost predicate AllDifferent<T>(s: seq<T>) {
    forall i, j :: 0 <= i < j < |s| ==> s[i] != s[j]
  }

  lemma RearrangedStaysDistinct<T>(s: seq<T>, t: seq<T>, i: nat, j: nat)
    requires multiset(t) == multiset(s) && i < j < |t|
    requires AllDifferent(s)
    ensures t[i] != t[j] && t[i] in s && t[j] in s
  {
    RearrangementMembers(t, s);
    assert t[i] in t && t[j] in t;
    var k :| 0 <= k < |s| && s[k] == t[i];
    OnlyOnce(s, k);
    OnceMeansDistinct(t, i, j);
  }

  /** Sorting members that are all different, and have different keys, leaves no ties. */
  lemma DistinctSortStrictly<T(!new)>(s: seq<T>, key: T -> Key)
    requires forall i, j :: 0 <= i < j < |s| ==> s[i] != s[j]
    requires forall x, y :: x in s && y in s && key(x) == key(y) ==> x == y
    ensures StrictlySorted(SortBy(s, key), key)
  {
    var sorted := SortBy(s, key);
    forall i, j | 0 <= i < j < |sorted| ensures Less(key(sorted[i]), key(sorted[j])) {
      RearrangedStaysDistinct(s, sorted, i, j);
      assert !Less(key(sorted[j]), key(sorted[i]));
    }
  }

  // ---------------------------------------------------------------- selections

  function Filter<T(!new)>(s: seq<T>, p: T -> bool): (r: seq<T>)
    ensures forall x :: x in r <==> x in s && p(x)
  {
    if s == [] then []
    else
      assert s == [s[0]] + s[1..];
      if p(s[0]) then [s[0]] + Filter(s[1..], p) else Filter(s[1..], p)
  }

  function Take<T>(n: nat, s: seq<T>): seq<T> {
    if |s| <= n then s else s[..n]
  }

  lemma {:induction false} FilterConcat<T(!new)>(a: seq<T>, b: seq<T>, p: T -> bool)
    ensures Filter(a + b, p) == Filter(a, p) + Filter(b, p)
  {
    if a == [] {
      assert a + b == b;
    } else {
      assert (a + b)[1..] == a[1..] + b;
      FilterConcat(a[1..], b, p);
    }
  }

  lemma FilterLast<T(!new)>(s: seq<T>, p: T -> bool)
    requires s != []
    ensures Filter(s, p) == Filter(s[..|s| - 1], p) + if p(s[|s| - 1]) then [s[|s| - 1]] else []
  {
    var front, last := s[..|s| - 1], s[|s| - 1];
    assert s == front + [last];
    FilterConcat(front, [last], p);
    assert [last][1..] == [];
    assert Filter([last], p) == if p(last) then [last] else [];
  }

  lemma {:induction false} FilterStaysDistinct<T(!new)>(s: seq<T>, p: T -> bool)
    requires forall i, j :: 0 <= i < j < |s| ==> s[i] != s[j]
    ensures forall i, j :: 0 <= i < j < |Filter(s, p)| ==> Filter(s, p)[i] != Filter(s, p)[j]
  {
    if s != [] {
      FilterStaysDistinct(s[1..], p);
      var rest := Filter(s[1..], p);
      assert forall j :: 0 <= j < |rest| ==> rest[j] in rest;
      assert s[0] !in s[1..];
    }
  }

  lemma {:induction false} FilterStaysStrict<T(!new)>(s: seq<T>, key: T -> Key, p: T -> bool)
    requires StrictlySorted(s, key)
    ensures StrictlySorted(Filter(s, p), key)
  {
    if s != [] {
      FilterStaysStrict(s[1..], key, p);
      var rest := Filter(s[1..], p);
      forall j | 0 <= j < |rest| ensures Less(key(s[0]), key(rest[j])) {
        assert rest[j] in rest;
        var k :| 0 <= k < |s[1..]| && s[1..][k] == rest[j];
      }
    }
  }

  lemma {:induction false} SortOfSorted<T(!new)>(s: seq<T>, key: T -> Key)
    requires Sorted(s, key)
    ensures SortBy(s, key) == s
  {
    if s != [] {
      SortOfSorted(s[1..], key);
    }
  }

  lemma InsertInFront<T(!new)>(x: T, s: seq<T>, key: T -> Key)
    requires forall y :: y in s ==> !Less(key(y), key(x))
    ensures Insert(x, s, key) == [x] + s
  {
  }

  lemma {:induction false} FilterOfInsert<T(!new)>(x: T, s: seq<T>, key: T -> Key, p: T -> bool)
    requires Sorted(s, key)
    ensures Filter(Insert(x, s, key), p) == if p(x) then Insert(x, Filter(s, p), key) else Filter(s, p)
  {
    if s == [] || !Less(key(s[0]), key(x)) {
      assert ([x] + s)[1..] == s;
      forall y | y in Filter(s, p) ensures !Less(key(y), key(x)) {
        var i :| 0 <= i < |s| && s[i] == y;
        assert i > 0 ==> !Less(key(s[i]), key(s[0]));
      }
      InsertInFront(x, Filter(s, p), key);
    } else {
      FilterOfInsert(x, s[1..], key, p);
      assert ([s[0]] + Insert(x, s[1..], key))[1..] == Insert(x, s[1..], key);
    }
  }

  /** Selecting from a sorted list is sorting the selection. */
  lemma {:induction false} FilterOfSort<T(!new)>(s: seq<T>, key: T -> Key, p: T -> bool)
    ensures Filter(SortBy(s, key), p) == SortBy(Filter(s, p), key)
  {
    if s != [] {
      FilterOfSort(s[1..], key, p);
      FilterOfInsert(s[0], SortBy(s[1..], key), key, p);
    }
  }

  predicate StrictlyAscending(s: seq<nat>) {
    forall i, j :: 0 <= i < j < |s| ==> s[i] < s[j]
  }

  lemma {:induction false} LeastBelow(s: set<nat>, x: nat)
    requires x in s
    ensures exists m :: m in s && forall y :: y in s ==> m <= y
    decreases x
  {
    if y :| y in s && y < x {
      LeastBelow(s, y);
    }
  }

  function Least(s: set<nat>): (m: nat)
    requires s != {}
    ensures m in s && forall y :: y in s ==> m <= y
  {
    assert exists m :: m in s && forall y :: y in s ==> m <= y by {
      var x :| x in s;
      LeastBelow(s, x);
    }
    var m :| m in s && forall y :: y in s ==> m <= y;
    m
  }

  /** The iteration order of an ordered set: each member once, in ascending order. */
  function Ascending(s: set<nat>): seq<nat>
    decreases s
  {
    if s == {} then []
    else
      var m := Least(s);
      [m] + Ascending(s - {m})
  }

  lemma PrependLess(m: nat, rest: seq<nat>)
    requires StrictlyAscending(rest) && forall x :: x in rest ==> m < x
    ensures StrictlyAscending([m] + rest)
  {
    assert forall i :: 0 <= i < |rest| ==> rest[i] in rest;
  }

  lemma {:induction false} AscendingIsExact(s: set<nat>)
    ensures StrictlyAscending(Ascending(s))
    ensures forall x :: x in Ascending(s) <==> x in s
    ensures |Ascending(s)| == |s|
    decreases s
  {
    if s != {} {
      var m := Least(s);
      AscendingIsExact(s - {m});
      PrependLess(m, Ascending(s - {m}));
    }
  }

  /** The maximum of a column, zero when there are no rows. */
  function Greatest(s: set<nat>): (m: nat)
    ensures forall y :: y in s ==> y <= m
    ensures m in s || (s == {} && m == 0)
  {
    AscendingIsExact(s);
    if s == {} then 0 else
      assert forall y :: y in s ==> y in Ascending(s);
      Ascending(s)[|s| - 1]
  }

  lemma SameOnce(a: seq<nat>, b: seq<nat>)
    requires forall i, j :: 0 <= i < j < |a| ==> a[i] != a[j]
    requires forall i, j :: 0 <= i < j < |b| ==> b[i] != b[j]
    requires forall x :: x in a <==> x in b
    ensures multiset(a) == multiset(b)
  {
    forall x ensures multiset(a)[x] == multiset(b)[x] {
      OnceEach(a, x);
      OnceEach(b, x);
    }
  }

  lemma SortedOnceAgree(s: seq<nat>, a: seq<nat>, b: seq<nat>, key: nat -> Key)
    requires multiset(a) == multiset(s) && multiset(b) == multiset(s)
    requires Sorted(a, key) && StrictlyAscending(b) && forall x :: key(x) == (x as int, 0)
    ensures a == b
  {
    assert Sorted(b, key);
    SortedUnique(a, b, key);
  }

  /** Sorting a duplicate-free list gives the iteration order of its members. */
  lemma SortIsAscending(s: seq<nat>, members: set<nat>)
    requires forall i, j :: 0 <= i < j < |s| ==> s[i] != s[j]
    requires forall x :: x in s <==> x in members
    ensures SortBy(s, (x: nat) => (x as int, 0)) == Ascending(members)
  {
    var key := (x: nat) => (x as int, 0);
    AscendingIsExact(members);
    SameOnce(s, Ascending(members));
    SortedOnceAgree(s, SortBy(s, key), Ascending(members), key);
  }

  lemma {:induction false} OnceEach(s: seq<nat>, x: nat)
    requires forall i, j :: 0 <= i < j < |s| ==> s[i] != s[j]
    ensures multiset(s)[x] == if x in s then 1 else 0
  {
    if s != [] {
      OnceEach(s[1..], x);
      assert s == [s[0]] + s[1..];
    }
  }
}
