/** A stable insertion sort by a total preorder. */
module Sorting {

  ghost predicate TotalPreorder<T(!new)>(leq: (T, T) -> bool) {
    && (forall a, b :: leq(a, b) || leq(b, a))
    && (forall a, b, c :: leq(a, b) && leq(b, c) ==> leq(a, c))
  }

  ghost predicate InOrder<T>(s: seq<T>, leq: (T, T) -> bool) {
    forall i, j | 0 <= i < j < |s| :: leq(s[i], s[j])
  }

  function Insert<T>(x: T, s: seq<T>, leq: (T, T) -> bool): seq<T> {
    if s == [] then [x]
    else if !leq(x, s[0]) then [s[0]] + Insert(x, s[1..], leq)
    else [x] + s
  }

  function Sort<T>(s: seq<T>, leq: (T, T) -> bool): seq<T> {
    if s == [] then [] else Insert(s[0], Sort(s[1..], leq), leq)
  }

  lemma {:induction false} InsertKeepsAll<T>(x: T, s: seq<T>, leq: (T, T) -> bool)
    ensures multiset(Insert(x, s, leq)) == multiset{x} + multiset(s)
    ensures forall y :: y in Insert(x, s, leq) <==> y == x || y in s
  {
    if s != [] {
      assert s == [s[0]] + s[1..];
      InsertKeepsAll(x, s[1..], leq);
    }
  }

  lemma OneIsInOrder<T>(x: T, leq: (T, T) -> bool)
    ensures InOrder([x], leq)
  {
  }

  lemma TailIsInOrder<T>(s: seq<T>, leq: (T, T) -> bool)
    requires s != [] && InOrder(s, leq)
    ensures InOrder(s[1..], leq)
  {
  }

  lemma Prepended<T>(x: T, s: seq<T>, leq: (T, T) -> bool)
    requires InOrder(s, leq) && forall k | 0 <= k < |s| :: leq(x, s[k])
    ensures InOrder([x] + s, leq)
  {
  }

  lemma LeadsTheTail<T(!new)>(x: T, s: seq<T>, leq: (T, T) -> bool)
    requires TotalPreorder(leq) && InOrder(s, leq) && s != [] && !leq(x, s[0])
    ensures leq(s[0], x) && forall y | y in s[1..] :: leq(s[0], y)
  {
    forall y | y in s[1..] ensures leq(s[0], y) {
      var k :| 0 <= k < |s| - 1 && s[1..][k] == y;
      assert s[k + 1] == y;
    }
  }

  lemma LeadsAll<T(!new)>(x: T, s: seq<T>, leq: (T, T) -> bool)
    requires TotalPreorder(leq) && InOrder(s, leq) && s != [] && leq(x, s[0])
    ensures forall k | 0 <= k < |s| :: leq(x, s[k])
  {
    forall k | 0 <= k < |s| ensures leq(x, s[k]) {
      assert k == 0 || leq(s[0], s[k]);
    }
  }

  lemma {:induction false} InsertKeepsOrder<T(!new)>(x: T, s: seq<T>, leq: (T, T) -> bool)
    requires TotalPreorder(leq) && InOrder(s, leq)
    ensures InOrder(Insert(x, s, leq), leq)
  {
    hide TotalPreorder, InOrder;
    if s == [] {
      OneIsInOrder(x, leq);
    } else if !leq(x, s[0]) {
      var rest := Insert(x, s[1..], leq);
      TailIsInOrder(s, leq);
      InsertKeepsOrder(x, s[1..], leq);
      InsertKeepsAll(x, s[1..], leq);
      LeadsTheTail(x, s, leq);
      forall k | 0 <= k < |rest| ensures leq(s[0], rest[k]) {
        assert rest[k] in rest;
      }
      Prepended(s[0], rest, leq);
    } else {
      LeadsAll(x, s, leq);
      Prepended(x, s, leq);
    }
  }

  /** The result is in order, and holds the same elements as often. */
  lemma {:induction false} SortSorts<T(!new)>(s: seq<T>, leq: (T, T) -> bool)
    requires TotalPreorder(leq)
    ensures InOrder(Sort(s, leq), leq) && multiset(Sort(s, leq)) == multiset(s)
  {
    if s != [] {
      assert s == [s[0]] + s[1..];
      SortSorts(s[1..], leq);
      InsertKeepsOrder(s[0], Sort(s[1..], leq), leq);
      InsertKeepsAll(s[0], Sort(s[1..], leq), leq);
    }
  }

  lemma SortFew<T>(x: T, y: T, leq: (T, T) -> bool)
    ensures Sort([], leq) == [] && Sort([x], leq) == [x]
    ensures Sort([x, y], leq) == if leq(x, y) then [x, y] else [y, x]
  {
    var none: seq<T> := [];
    assert Sort(none, leq) == none;
    assert Insert(x, none, leq) == [x] && Insert(y, none, leq) == [y];
    assert [x][1..] == none && [y][1..] == none && [x, y][1..] == [y];
    assert Sort([y], leq) == [y];
    assert Sort([x, y], leq) == Insert(x, [y], leq);
    assert Insert(x, [y], leq) == if leq(x, y) then [x] + [y] else [y] + Insert(x, none, leq);
  }

  /** What is in order already stays as it is, equal elements included. */
  lemma {:induction false} SortKeepsOrdered<T(!new)>(s: seq<T>, leq: (T, T) -> bool)
    requires TotalPreorder(leq) && InOrder(s, leq)
    ensures Sort(s, leq) == s
  {
    if s != [] {
      SortKeepsOrdered(s[1..], leq);
      assert s[1..] != [] ==> leq(s[0], s[1]);
      assert s == [s[0]] + s[1..];
    }
  }
}
