/** `sorted(items, key=...)` by a numeric key, as the catalog services use it. */
module Sorting {

  function Insert<T>(sorted: seq<T>, x: T, key: T -> nat): seq<T> {
    if sorted == [] || key(sorted[|sorted| - 1]) <= key(x) then sorted + [x]
    else Insert(sorted[..|sorted| - 1], x, key) + [sorted[|sorted| - 1]]
  }

  /** Stable: equal keys keep their order. */
  function SortBy<T>(items: seq<T>, key: T -> nat): seq<T> {
    if items == [] then []
    else Insert(SortBy(items[..|items| - 1], key), items[|items| - 1], key)
  }

  ghost predicate Ascending<T>(items: seq<T>, key: T -> nat) {
    forall i, j :: 0 <= i < j < |items| ==> key(items[i]) <= key(items[j])
  }

  lemma {:induction false} InsertKeepsMembers<T>(sorted: seq<T>, x: T, key: T -> nat)
    ensures multiset(Insert(sorted, x, key)) == multiset(sorted) + multiset{x}
  {
    if sorted != [] && key(sorted[|sorted| - 1]) > key(x) {
      InsertKeepsMembers(sorted[..|sorted| - 1], x, key);
      assert sorted == sorted[..|sorted| - 1] + [sorted[|sorted| - 1]];
    }
  }

  lemma AppendKeepsAscending<T>(items: seq<T>, last: T, key: T -> nat)
    requires Ascending(items, key) && (items != [] ==> key(items[|items| - 1]) <= key(last))
    ensures Ascending(items + [last], key)
  {
    forall i | 0 <= i < |items| ensures key(items[i]) <= key(last) {
      assert i < |items| - 1 ==> key(items[i]) <= key(items[|items| - 1]);
    }
  }

  lemma {:induction false} InsertKeepsAscending<T>(sorted: seq<T>, x: T, key: T -> nat)
    requires Ascending(sorted, key)
    ensures Ascending(Insert(sorted, x, key), key)
    ensures var top := Insert(sorted, x, key); top != [] && (top[|top| - 1] == x || (sorted != [] && top[|top| - 1] == sorted[|sorted| - 1]))
  {
    if sorted != [] && key(sorted[|sorted| - 1]) > key(x) {
      var front, last := sorted[..|sorted| - 1], sorted[|sorted| - 1];
      InsertKeepsAscending(front, x, key);
      assert front != [] ==> key(front[|front| - 1]) <= key(last);
      AppendKeepsAscending(Insert(front, x, key), last, key);
    } else {
      AppendKeepsAscending(sorted, x, key);
    }
  }

  /** Sorting keeps every item and puts the keys in order. */
  lemma {:induction false} SortIsSorted<T>(items: seq<T>, key: T -> nat)
    ensures Ascending(SortBy(items, key), key)
    ensures multiset(SortBy(items, key)) == multiset(items)
  {
    hide Insert, Ascending;
    if items == [] {
      EmptyIsAscending<T>(key);
    } else {
      var front, last := items[..|items| - 1], items[|items| - 1];
      SortIsSorted(front, key);
      InsertKeepsAscending(SortBy(front, key), last, key);
      InsertKeepsMembers(SortBy(front, key), last, key);
      assert items == front + [last];
    }
  }

  lemma EmptyIsAscending<T>(key: T -> nat)
    ensures Ascending([], key)
  {
  }
}
