// What the standard sorts promise, written once: the same items, in order,
// and items that compare equal as they stood.

module StableSort {

  // Strict orders under which being incomparable is an equivalence.
  ghost predicate IsOrder<T(!new)>(less: (T, T) -> bool) {
    && (forall x, y :: less(x, y) ==> !less(y, x))
    && (forall x, y, z :: less(x, y) && less(y, z) ==> less(x, z))
    && (forall x, y, z :: !less(x, y) && !less(y, z) ==> !less(x, z))
  }

  function Inserted<T>(sorted: seq<T>, x: T, less: (T, T) -> bool): seq<T> {
    if sorted == [] || !less(x, sorted[|sorted| - 1]) then sorted + [x]
    else Inserted(sorted[..|sorted| - 1], x, less) + [sorted[|sorted| - 1]]
  }

  function Sorted<T>(items: seq<T>, less: (T, T) -> bool): seq<T> {
    if items == [] then [] else Inserted(Sorted(items[..|items| - 1], less), items[|items| - 1], less)
  }

  predicate InOrder<T>(items: seq<T>, less: (T, T) -> bool) {
    forall i, j | 0 <= i < j < |items| :: !less(items[j], items[i])
  }

  predicate Ties<T>(x: T, y: T, less: (T, T) -> bool) {
    !less(x, y) && !less(y, x)
  }

  // The items that compare equal to x, as they stand.
  function TiesOf<T>(items: seq<T>, x: T, less: (T, T) -> bool): seq<T> {
    if items == [] then []
    else TiesOf(items[..|items| - 1], x, less) + if Ties(x, items[|items| - 1], less) then [items[|items| - 1]] else []
  }

  lemma {:induction false} InsertedIsPermutation<T>(sorted: seq<T>, x: T, less: (T, T) -> bool)
    ensures multiset(Inserted(sorted, x, less)) == multiset(sorted) + multiset{x}
  {
    if sorted != [] && less(x, sorted[|sorted| - 1]) {
      var front := sorted[..|sorted| - 1];
      InsertedIsPermutation(front, x, less);
      assert sorted == front + [sorted[|sorted| - 1]];
    }
  }

  lemma {:induction false} InsertedInOrder<T(!new)>(sorted: seq<T>, x: T, less: (T, T) -> bool)
    requires IsOrder(less) && InOrder(sorted, less)
    ensures InOrder(Inserted(sorted, x, less), less)
  {
    if sorted != [] {
      var front, last := sorted[..|sorted| - 1], sorted[|sorted| - 1];
      if less(x, last) {
        InsertedInOrder(front, x, less);
        InsertedIsPermutation(front, x, less);
        var r := Inserted(front, x, less);
        forall i | 0 <= i < |r|
          ensures !less(last, r[i])
        {
          assert r[i] in multiset(r);
          if r[i] != x {
            assert r[i] in front;
          }
        }
      } else {
        forall i | 0 <= i < |sorted|
          ensures !less(x, sorted[i])
        {
          assert i < |front| ==> !less(last, sorted[i]);
        }
      }
    }
  }

  lemma {:induction false} TiesOfInserted<T(!new)>(sorted: seq<T>, x: T, y: T, less: (T, T) -> bool)
    requires IsOrder(less) && InOrder(sorted, less)
    ensures TiesOf(Inserted(sorted, x, less), y, less) == TiesOf(sorted, y, less) + if Ties(y, x, less) then [x] else []
  {
    if sorted == [] || !less(x, sorted[|sorted| - 1]) {
      assert (sorted + [x])[..|sorted|] == sorted;
    } else {
      var front, last := sorted[..|sorted| - 1], sorted[|sorted| - 1];
      TiesOfInserted(front, x, y, less);
      var r := Inserted(front, x, less);
      assert (r + [last])[..|r|] == r;
      assert Ties(y, x, less) ==> !Ties(y, last, less);
    }
  }

  lemma {:induction false} SortedIsStable<T(!new)>(items: seq<T>, less: (T, T) -> bool)
    requires IsOrder(less)
    ensures multiset(Sorted(items, less)) == multiset(items)
    ensures InOrder(Sorted(items, less), less)
    ensures SameTies(Sorted(items, less), items, less)
  {
    if items != [] {
      var front, last := items[..|items| - 1], items[|items| - 1];
      SortedIsStable(front, less);
      InsertedIsPermutation(Sorted(front, less), last, less);
      InsertedInOrder(Sorted(front, less), last, less);
      assert items == front + [last];
      forall x
        ensures TiesOf(Sorted(items, less), x, less) == TiesOf(items, x, less)
      {
        TiesOfInserted(Sorted(front, less), last, x, less);
      }
    }
  }

  lemma SameLast<T(!new)>(a: seq<T>, b: seq<T>, less: (T, T) -> bool)
    requires IsOrder(less) && InOrder(a, less) && InOrder(b, less) && multiset(a) == multiset(b) && a != [] && b != []
    requires SameTies(a, b, less)
    ensures a[|a| - 1] == b[|b| - 1]
  {
    var last, last' := a[|a| - 1], b[|b| - 1];
    LastIsMost(a, b, less);
    LastIsMost(b, a, less);
    assert TiesOf(a, last, less)[|TiesOf(a, last, less)| - 1] == last;
    assert TiesOf(b, last, less)[|TiesOf(b, last, less)| - 1] == last';
  }

  lemma LastIsMost<T(!new)>(a: seq<T>, b: seq<T>, less: (T, T) -> bool)
    requires IsOrder(less) && InOrder(a, less) && multiset(a) == multiset(b) && a != [] && b != []
    ensures !less(a[|a| - 1], b[|b| - 1])
  {
    assert b[|b| - 1] in multiset(b);
    assert b[|b| - 1] in a;
  }

  lemma TiesOfLonger<T>(front: seq<T>, last: T, x: T, less: (T, T) -> bool)
    ensures TiesOf(front + [last], x, less) == TiesOf(front, x, less) + if Ties(x, last, less) then [last] else []
  {
    assert (front + [last])[..|front|] == front;
  }

  lemma Cancels<T>(a: seq<T>, b: seq<T>, tail: seq<T>)
    requires a + tail == b + tail
    ensures a == b
  {
    assert |a| == |b|;
    assert (a + tail)[..|a|] == a && (b + tail)[..|b|] == b;
  }

  ghost predicate SameTies<T(!new)>(a: seq<T>, b: seq<T>, less: (T, T) -> bool) {
    forall x :: TiesOf(a, x, less) == TiesOf(b, x, less)
  }

  lemma FrontTies<T(!new)>(front: seq<T>, front': seq<T>, last: T, less: (T, T) -> bool)
    requires SameTies(front + [last], front' + [last], less)
    ensures SameTies(front, front', less)
  {
    forall x
      ensures TiesOf(front, x, less) == TiesOf(front', x, less)
    {
      TiesOfLonger(front, last, x, less);
      TiesOfLonger(front', last, x, less);
      assert TiesOf(front + [last], x, less) == TiesOf(front' + [last], x, less);
      Cancels(TiesOf(front, x, less), TiesOf(front', x, less), if Ties(x, last, less) then [last] else []);
    }
  }

  lemma FrontItems<T>(front: seq<T>, front': seq<T>, last: T)
    requires multiset(front + [last]) == multiset(front' + [last])
    ensures multiset(front) == multiset(front')
  {
    assert multiset(front) == multiset(front + [last]) - multiset{last};
    assert multiset(front') == multiset(front' + [last]) - multiset{last};
  }

  // Two lists of the same items, each in order, with the same ties.
  ghost predicate Alike<T(!new)>(a: seq<T>, b: seq<T>, less: (T, T) -> bool) {
    InOrder(a, less) && InOrder(b, less) && multiset(a) == multiset(b) && SameTies(a, b, less)
  }

  lemma FrontsAlike<T(!new)>(front: seq<T>, front': seq<T>, last: T, less: (T, T) -> bool)
    requires Alike(front + [last], front' + [last], less)
    ensures Alike(front, front', less)
  {
    FrontItems(front, front', last);
    FrontTies(front, front', last, less);
    FrontInOrder(front, last, less);
    FrontInOrder(front', last, less);
  }

  lemma FrontInOrder<T>(front: seq<T>, last: T, less: (T, T) -> bool)
    requires InOrder(front + [last], less)
    ensures InOrder(front, less)
  {
    assert forall i | 0 <= i < |front| :: (front + [last])[i] == front[i];
  }

  lemma {:induction false} AlikeIsEqual<T(!new)>(a: seq<T>, b: seq<T>, less: (T, T) -> bool)
    requires IsOrder(less) && Alike(a, b, less)
    ensures a == b
  {
    assert |a| == |multiset(a)| && |b| == |multiset(b)|;
    if a != [] {
      SameLast(a, b, less);
      var front, front', last := a[..|a| - 1], b[..|b| - 1], a[|a| - 1];
      assert a == front + [last] && b == front' + [last];
      FrontsAlike(front, front', last, less);
      AlikeIsEqual(front, front', less);
    }
  }

  // Those three promises leave no choice: any list that keeps them is this one.
  lemma StableSortIsUnique<T(!new)>(items: seq<T>, other: seq<T>, less: (T, T) -> bool)
    requires IsOrder(less) && InOrder(other, less) && multiset(other) == multiset(items) && SameTies(other, items, less)
    ensures other == Sorted(items, less)
  {
    SortedIsStable(items, less);
    TiesCarryOver(other, items, Sorted(items, less), less);
    AlikeIsEqual(other, Sorted(items, less), less);
  }

  lemma TiesCarryOver<T(!new)>(a: seq<T>, b: seq<T>, c: seq<T>, less: (T, T) -> bool)
    requires SameTies(a, b, less) && SameTies(c, b, less)
    ensures SameTies(a, c, less)
  {
    forall x
      ensures TiesOf(a, x, less) == TiesOf(c, x, less)
    {
      assert TiesOf(a, x, less) == TiesOf(b, x, less) && TiesOf(c, x, less) == TiesOf(b, x, less);
    }
  }
}
