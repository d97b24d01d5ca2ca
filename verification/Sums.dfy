/** Sums of a weight over a sequence. */
module Sums {
  import opened Sorting

  function One(condition: bool): nat {
    if condition then 1 else 0
  }

  function Sum<T>(weight: T -> nat, items: seq<T>): nat
    decreases items
  {
    if items == [] then 0 else Sum(weight, items[..|items| - 1]) + weight(items[|items| - 1])
  }

  /** The places of the items that have the weight one. */
  ghost function Places<T>(weight: T -> nat, items: seq<T>): set<nat> {
    set i: nat | i < |items| && weight(items[i]) == 1
  }

  /** The sum of weights of zero and one is the number of items that have one. */
  lemma {:induction false} SumCounts<T>(weight: T -> nat, items: seq<T>)
    requires forall item :: item in items ==> weight(item) <= 1
    ensures Sum(weight, items) == |Places(weight, items)|
  {
    if items != [] {
      var front, last := items[..|items| - 1], |items| - 1;
      SumCounts(weight, front);
      assert items[last] in items;
      assert Places(weight, items) == Places(weight, front) + (if weight(items[last]) == 1 then {last} else {});
    }
  }

  lemma SumNext<T>(weight: T -> nat, items: seq<T>, i: nat)
    requires i < |items|
    ensures Sum(weight, items[..i + 1]) == Sum(weight, items[..i]) + weight(items[i])
  {
    assert items[..i + 1][..i] == items[..i];
  }

  lemma {:induction false} SumOfBoth<T>(weight: T -> nat, a: seq<T>, b: seq<T>)
    ensures Sum(weight, a + b) == Sum(weight, a) + Sum(weight, b)
    decreases b
  {
    if b == [] {
      assert a + b == a;
    } else {
      SumOfBoth(weight, a, b[..|b| - 1]);
      assert (a + b)[..|a + b| - 1] == a + b[..|b| - 1];
    }
  }

  lemma SumWithout<T>(weight: T -> nat, items: seq<T>, i: nat)
    requires i < |items|
    ensures Sum(weight, items) == Sum(weight, items[..i] + items[i + 1..]) + weight(items[i])
  {
    hide Sum;
    SumOfBoth(weight, items[..i + 1], items[i + 1..]);
    SumOfBoth(weight, items[..i], items[i + 1..]);
    SumNext(weight, items, i);
    assert items[..i + 1] + items[i + 1..] == items;
  }

  /** The first item of a permutation, found in the other arrangement. */
  lemma TakeOut<T>(a: seq<T>, b: seq<T>) returns (i: nat)
    requires multiset(a) == multiset(b) && a != []
    ensures i < |b| && b[i] == a[0]
    ensures multiset(a[..0] + a[1..]) == multiset(b[..i] + b[i + 1..])
  {
    assert a[0] in multiset(b);
    i :| 0 <= i < |b| && b[i] == a[0];
    WithoutOne(a, 0);
    WithoutOne(b, i);
  }

  lemma SameLength<T>(a: seq<T>, b: seq<T>)
    requires multiset(a) == multiset(b)
    ensures |a| == |b|
  {
    assert |a| == |multiset(a)| == |multiset(b)| == |b|;
  }

  lemma {:induction false} SumPermuted<T>(weight: T -> nat, a: seq<T>, b: seq<T>)
    requires multiset(a) == multiset(b)
    ensures Sum(weight, a) == Sum(weight, b)
    decreases a
  {
    SameLength(a, b);
    if a != [] {
      hide Sum;
      var i := TakeOut(a, b);
      SumPermuted(weight, a[..0] + a[1..], b[..i] + b[i + 1..]);
      SumWithout(weight, a, 0);
      SumWithout(weight, b, i);
    }
  }

  lemma {:induction false} SumBounded<T>(small: T -> nat, large: T -> nat, items: seq<T>)
    requires forall item :: item in items ==> small(item) <= large(item)
    ensures Sum(small, items) <= Sum(large, items)
    decreases items
  {
    if items != [] {
      SumBounded(small, large, items[..|items| - 1]);
      assert items[|items| - 1] in items;
    }
  }

  lemma {:induction false} SumOfSame<T>(f: T -> nat, g: T -> nat, items: seq<T>)
    requires forall item :: item in items ==> f(item) == g(item)
    ensures Sum(f, items) == Sum(g, items)
    decreases items
  {
    if items != [] {
      SumOfSame(f, g, items[..|items| - 1]);
      assert items[|items| - 1] in items;
    }
  }

  lemma {:induction false} SumOfPairs<T>(f: T -> nat, g: T -> nat, h: T -> nat, items: seq<T>)
    requires forall item :: item in items ==> h(item) == f(item) + g(item)
    ensures Sum(h, items) == Sum(f, items) + Sum(g, items)
    decreases items
  {
    if items != [] {
      SumOfPairs(f, g, h, items[..|items| - 1]);
      assert items[|items| - 1] in items;
    }
  }
}
