/** Python's `sorted` with a key, as a stable insertion sort, and what makes its result unique. */
module Sorting {
  ghost predicate StrictOrder<T(!new)>(less: (T, T) -> bool) {
    && (forall x :: !less(x, x))
    && (forall x, y :: less(x, y) || less(y, x) || x == y)
    && (forall x, y, z :: less(x, y) && less(y, z) ==> less(x, z))
  }

  predicate IsSorted<T(!new)>(less: (T, T) -> bool, items: seq<T>) {
    forall i, j :: 0 <= i < j < |items| ==> !less(items[j], items[i])
  }

  /** `items` with `item` inserted after everything that is not greater. */
  function Insert<T>(less: (T, T) -> bool, item: T, items: seq<T>): seq<T>
    decreases items
  {
    if items == [] || less(item, items[0]) then [item] + items else [items[0]] + Insert(less, item, items[1..])
  }

  function Sorted<T>(less: (T, T) -> bool, items: seq<T>): seq<T>
    decreases items
  {
    if items == [] then [] else Insert(less, items[|items| - 1], Sorted(less, items[..|items| - 1]))
  }

  lemma {:induction false} InsertAdds<T>(less: (T, T) -> bool, item: T, items: seq<T>)
    ensures multiset(Insert(less, item, items)) == multiset(items) + multiset{item}
    decreases items
  {
    if items != [] && !less(item, items[0]) {
      InsertAdds(less, item, items[1..]);
      assert items == [items[0]] + items[1..];
    }
  }

  lemma {:induction false} InsertSorts<T(!new)>(less: (T, T) -> bool, item: T, items: seq<T>)
    requires StrictOrder(less) && IsSorted(less, items)
    ensures IsSorted(less, Insert(less, item, items))
    decreases items
  {
    if items == [] {
    } else if less(item, items[0]) {
      forall j | 0 <= j < |items|
        ensures !less(items[j], item)
      {
        if j > 0 {
          assert !less(items[j], items[0]);
        }
      }
    } else {
      var rest := Insert(less, item, items[1..]);
      InsertSorts(less, item, items[1..]);
      InsertAdds(less, item, items[1..]);
      forall j | 0 <= j < |rest|
        ensures !less(rest[j], items[0])
      {
        assert rest[j] in multiset(rest);
        assert rest[j] == item || rest[j] in items[1..];
      }
    }
  }

  /** The result is sorted and a permutation of the input. */
  lemma {:induction false} SortedSorts<T(!new)>(less: (T, T) -> bool, items: seq<T>)
    requires StrictOrder(less)
    ensures IsSorted(less, Sorted(less, items))
    ensures multiset(Sorted(less, items)) == multiset(items)
    decreases items
  {
    if items != [] {
      var front, last := items[..|items| - 1], items[|items| - 1];
      SortedSorts(less, front);
      InsertSorts(less, last, Sorted(less, front));
      InsertAdds(less, last, Sorted(less, front));
      assert items == front + [last];
    }
  }

  lemma HeadIsLeast<T(!new)>(less: (T, T) -> bool, items: seq<T>, item: T)
    requires StrictOrder(less) && IsSorted(less, items) && item in items
    ensures !less(item, items[0])
  {
    var i :| 0 <= i < |items| && items[i] == item;
  }

  lemma TailOf<T>(items: seq<T>)
    requires items != []
    ensures multiset(items[1..]) == multiset(items) - multiset{items[0]}
  {
    assert items == [items[0]] + items[1..];
  }

  /** There is one sorted arrangement. */
  lemma {:induction false} SortedIsUnique<T(!new)>(less: (T, T) -> bool, a: seq<T>, b: seq<T>)
    requires StrictOrder(less) && IsSorted(less, a) && IsSorted(less, b) && multiset(a) == multiset(b)
    ensures a == b
    decreases a
  {
    assert |a| == |multiset(a)| == |multiset(b)| == |b|;
    if a != [] {
      assert a[0] == b[0] by {
        assert a[0] in multiset(b) && b[0] in multiset(a);
        HeadIsLeast(less, b, a[0]);
        HeadIsLeast(less, a, b[0]);
      }
      TailOf(a);
      TailOf(b);
      SortedIsUnique(less, a[1..], b[1..]);
      assert a == [a[0]] + a[1..] && b == [b[0]] + b[1..];
    }
  }

  /** Permutations sort to the same sequence. */
  lemma PermutationsSortAlike<T(!new)>(less: (T, T) -> bool, a: seq<T>, b: seq<T>)
    requires StrictOrder(less) && multiset(a) == multiset(b)
    ensures Sorted(less, a) == Sorted(less, b)
  {
    SortedSorts(less, a);
    SortedSorts(less, b);
    SortedIsUnique(less, Sorted(less, a), Sorted(less, b));
  }

  lemma WithoutOne<T>(items: seq<T>, i: nat)
    requires i < |items|
    ensures multiset(items[..i] + items[i + 1..]) == multiset(items) - multiset{items[i]}
  {
    assert items == items[..i] + [items[i]] + items[i + 1..];
  }

  // ---- Lexicographic order ----

  predicate Precedes<T(==)>(less: (T, T) -> bool, a: seq<T>, b: seq<T>)
    decreases a
  {
    b != [] && (a == [] || less(a[0], b[0]) || (a[0] == b[0] && Precedes(less, a[1..], b[1..])))
  }

  /** `a` ends, or is less, where the two first differ. */
  ghost predicate DiffersBelow<T>(less: (T, T) -> bool, a: seq<T>, b: seq<T>, k: nat) {
    k <= |a| && k < |b| && a[..k] == b[..k] && (k == |a| || less(a[k], b[k]))
  }

  lemma {:induction false} PrecedesMeans<T>(less: (T, T) -> bool, a: seq<T>, b: seq<T>)
    ensures Precedes(less, a, b) <==> exists k: nat :: DiffersBelow(less, a, b, k)
    decreases a
  {
    if b != [] {
      if a == [] || less(a[0], b[0]) {
        assert DiffersBelow(less, a, b, 0);
      } else {
        PrecedesMeans(less, a[1..], b[1..]);
        if a[0] == b[0] && Precedes(less, a[1..], b[1..]) {
          var k: nat :| DiffersBelow(less, a[1..], b[1..], k);
          assert a[..k + 1] == [a[0]] + a[1..][..k] && b[..k + 1] == [b[0]] + b[1..][..k];
          assert DiffersBelow(less, a, b, k + 1);
        }
        forall k: nat | DiffersBelow(less, a, b, k)
          ensures a[0] == b[0] && DiffersBelow(less, a[1..], b[1..], k - 1)
        {
          assert a[0] == a[..k][0] == b[..k][0];
          assert a[1..][..k - 1] == a[..k][1..] && b[1..][..k - 1] == b[..k][1..];
        }
      }
    }
  }

  lemma {:induction false} PrecedesTotal<T(!new)>(less: (T, T) -> bool, a: seq<T>, b: seq<T>)
    requires StrictOrder(less)
    ensures !Precedes(less, a, a)
    ensures Precedes(less, a, b) || Precedes(less, b, a) || a == b
    decreases a
  {
    if a != [] {
      PrecedesTotal(less, a[1..], if b == [] then [] else b[1..]);
      assert b != [] && a[0] == b[0] && a[1..] == b[1..] ==> a == [a[0]] + a[1..] == [b[0]] + b[1..] == b;
    }
  }

  lemma {:induction false} PrecedesTransitive<T(!new)>(less: (T, T) -> bool, a: seq<T>, b: seq<T>, c: seq<T>)
    requires StrictOrder(less) && Precedes(less, a, b) && Precedes(less, b, c)
    ensures Precedes(less, a, c)
    decreases a
  {
    if a != [] && a[0] == b[0] && b[0] == c[0] {
      PrecedesTransitive(less, a[1..], b[1..], c[1..]);
    }
  }

  function Lexicographic<T(==)>(less: (T, T) -> bool): (seq<T>, seq<T>) -> bool {
    (a, b) => Precedes(less, a, b)
  }

  /** The lexicographic order of a strict total order is one. */
  lemma LexicographicOrders<T(!new)>(less: (T, T) -> bool)
    requires StrictOrder(less)
    ensures StrictOrder(Lexicographic(less))
  {
    var order := Lexicographic(less);
    forall a, b
      ensures !order(a, a) && (order(a, b) || order(b, a) || a == b)
    {
      PrecedesTotal(less, a, b);
    }
    forall a, b, c | order(a, b) && order(b, c)
      ensures order(a, c)
    {
      PrecedesTransitive(less, a, b, c);
    }
  }
}
