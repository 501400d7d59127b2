/**
 * Ordering and paging of query results: the `ORDER BY` and
 * `OFFSET ... LIMIT ...` parts of the SQL queries in the persistence layer.
 *
 * SQL leaves the relative order of rows with equal sort keys unspecified, so
 * the contracts here speak of "some sorted arrangement of the rows" rather than
 * of one fixed permutation.
 */
module Ordering {

  /** `s` is in non-decreasing order of `key`. */
  predicate SortedBy<T>(s: seq<T>, key: T -> int) {
    forall i, j :: 0 <= i < j < |s| ==> key(s[i]) <= key(s[j])
  }

  /** `o` is an arrangement of the rows `s` in non-decreasing order of `key`. */
  predicate IsOrdering<T(==)>(o: seq<T>, s: seq<T>, key: T -> int) {
    multiset(o) == multiset(s) && SortedBy(o, key)
  }

  function Min(a: int, b: int): int { if a <= b then a else b }

  /** Inserts `x` into the sorted sequence `s`, after every element with the same key. */
  function Insert<T(==)>(x: T, s: seq<T>, key: T -> int): (r: seq<T>)
    requires SortedBy(s, key)
    ensures |r| == |s| + 1
    ensures r[0] == x || (s != [] && r[0] == s[0])
    ensures multiset(r) == multiset(s) + multiset{x}
    ensures SortedBy(r, key)
  {
    if s == [] then [x]
    else if key(x) < key(s[0]) then [x] + s
    else
      assert s == [s[0]] + s[1..];
      [s[0]] + Insert(x, s[1..], key)
  }

  /** A stable sort of `s` by `key`: one of the arrangements `ORDER BY key` may return. */
  function SortBy<T(==)>(s: seq<T>, key: T -> int): (r: seq<T>)
    ensures IsOrdering(r, s, key)
  {
    if s == [] then []
    else
      assert s == [s[0]] + s[1..];
      Insert(s[0], SortBy(s[1..], key), key)
  }

  /** `OFFSET skip LIMIT limit`: drop the first `skip` rows, then keep at most `limit`. */
  function Window<T>(s: seq<T>, skip: nat, limit: nat): (r: seq<T>)
    ensures |r| == if skip >= |s| then 0 else Min(limit, |s| - skip)
    ensures forall i :: 0 <= i < |r| ==> skip + i < |s| && r[i] == s[skip + i]
  {
    var rest := if skip >= |s| then [] else s[skip..];
    if limit >= |rest| then rest else rest[..limit]
  }

  /** A window of a sorted sequence is sorted. */
  lemma WindowSorted<T>(s: seq<T>, skip: nat, limit: nat, key: T -> int)
    requires SortedBy(s, key)
    ensures SortedBy(Window(s, skip, limit), key)
  {
    var r := Window(s, skip, limit);
    forall i, j | 0 <= i < j < |r| ensures key(r[i]) <= key(r[j]) {
      assert r[i] == s[skip + i] && r[j] == s[skip + j];
    }
  }

  /** Every row of a window is a row of the underlying sequence. */
  lemma WindowMembers<T>(s: seq<T>, skip: nat, limit: nat)
    ensures forall x :: x in Window(s, skip, limit) ==> x in s
  {
    var r := Window(s, skip, limit);
    forall x | x in r ensures x in s {
      var i :| 0 <= i < |r| && r[i] == x;
      assert s[skip + i] == x;
    }
  }

  /** Two rows with distinct keys have only one sorted arrangement. */
  lemma TwoRowsOrdering<T>(o: seq<T>, x: T, y: T, key: T -> int)
    requires IsOrdering(o, [x, y], key)
    requires key(x) < key(y)
    ensures o == [x, y]
  {
    assert |o| == |multiset(o)| == 2;
    assert o[0] in multiset(o) && o[1] in multiset(o);
    assert key(o[0]) <= key(o[1]);
  }

  /**
   * A window of a sorted arrangement of `s` is sorted, and holds only rows
   * of `s`.
   */
  lemma WindowOfOrdering<T>(o: seq<T>, s: seq<T>, skip: nat, limit: nat, key: T -> int)
    requires IsOrdering(o, s, key)
    ensures SortedBy(Window(o, skip, limit), key)
    ensures forall x :: x in Window(o, skip, limit) ==> x in s
  {
    WindowSorted(o, skip, limit, key);
    WindowMembers(o, skip, limit);
    forall x | x in Window(o, skip, limit) ensures x in s {
      assert x in multiset(o);
    }
  }

  /**
   * With no offset and a limit no smaller than the number of rows, the window
   * of an arrangement is the whole arrangement, holding every row.
   */
  lemma WindowOfOrderingAll<T>(o: seq<T>, s: seq<T>, limit: nat, key: T -> int)
    requires IsOrdering(o, s, key)
    requires |s| <= limit
    ensures Window(o, 0, limit) == o
    ensures forall x :: x in s ==> x in Window(o, 0, limit)
  {
    assert |o| == |multiset(o)| == |multiset(s)| == |s|;
    forall x | x in s ensures x in o {
      assert x in multiset(s);
    }
  }
}
