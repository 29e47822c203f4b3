/** Sorting by a total preorder, and when the result depends on nothing but the elements. */
module Orders {

  ghost predicate TotalPreorder<T(!new)>(le: (T, T) -> bool) {
    && (forall a, b :: le(a, b) || le(b, a))
    && (forall a, b, c :: le(a, b) && le(b, c) ==> le(a, c))
  }

  ghost predicate InOrder<T>(le: (T, T) -> bool, items: seq<T>) {
    forall i, j | 0 <= i < j < |items| :: le(items[i], items[j])
  }

  /** No two positions hold items that the order takes for equal. */
  ghost predicate Distinguishes<T>(le: (T, T) -> bool, items: seq<T>) {
    forall i, j | 0 <= i < j < |items| :: !(le(items[i], items[j]) && le(items[j], items[i]))
  }

  /** Places an item after all that may stand before it, so equal ones keep their order. */
  function Place<T>(le: (T, T) -> bool, items: seq<T>, item: T): seq<T> {
    if items == [] then [item]
    else if le(items[0], item) then [items[0]] + Place(le, items[1..], item)
    else [item] + items
  }

  function Sort<T>(le: (T, T) -> bool, items: seq<T>): seq<T> {
    if items == [] then [] else Place(le, Sort(le, items[..|items| - 1]), items[|items| - 1])
  }

  lemma PrependKeepsOrder<T(!new)>(le: (T, T) -> bool, first: T, rest: seq<T>)
    requires InOrder(le, rest) && forall item | item in multiset(rest) :: le(first, item)
    ensures InOrder(le, [first] + rest)
  {
    forall j | 0 <= j < |rest|
      ensures le(first, rest[j])
    {
      assert rest[j] in multiset(rest);
    }
  }

  lemma {:induction false} PlaceKeepsOrder<T(!new)>(le: (T, T) -> bool, items: seq<T>, item: T)
    requires TotalPreorder(le) && InOrder(le, items)
    ensures InOrder(le, Place(le, items, item))
    ensures multiset(Place(le, items, item)) == multiset(items) + multiset{item}
  {
    if items == [] {
    } else if le(items[0], item) {
      PlaceKeepsOrder(le, items[1..], item);
      assert items == [items[0]] + items[1..];
      PrependKeepsOrder(le, items[0], Place(le, items[1..], item));
    } else {
      forall other | other in multiset(items)
        ensures le(item, other)
      {
        assert le(item, items[0]);
      }
      PrependKeepsOrder(le, item, items);
    }
  }

  /** Sorting puts the items in order and loses and adds none. */
  lemma {:induction false} SortSorts<T(!new)>(le: (T, T) -> bool, items: seq<T>)
    requires TotalPreorder(le)
    ensures InOrder(le, Sort(le, items)) && multiset(Sort(le, items)) == multiset(items)
  {
    if items != [] {
      var rest, last := items[..|items| - 1], items[|items| - 1];
      assert items == rest + [last];
      SortSorts(le, rest);
      PlaceKeepsOrder(le, Sort(le, rest), last);
    }
  }

  lemma SameHead<T(!new)>(le: (T, T) -> bool, a: seq<T>, b: seq<T>)
    requires TotalPreorder(le) && InOrder(le, a) && InOrder(le, b) && Distinguishes(le, a)
    requires a != [] && b != [] && multiset(a) == multiset(b)
    ensures a[0] == b[0]
  {
    assert a[0] in multiset(b) && b[0] in multiset(a);
    var i :| 0 <= i < |b| && b[i] == a[0];
    var j :| 0 <= j < |a| && a[j] == b[0];
    assert le(b[0], a[0]) && le(a[0], b[0]);
  }

  lemma SameTails<T>(a: seq<T>, b: seq<T>)
    requires a != [] && b != [] && a[0] == b[0] && multiset(a) == multiset(b)
    ensures multiset(a[1..]) == multiset(b[1..])
  {
    assert a == [a[0]] + a[1..] && b == [b[0]] + b[1..];
    assert multiset(a) == multiset{a[0]} + multiset(a[1..]);
    assert multiset(b) == multiset{b[0]} + multiset(b[1..]);
    assert multiset(a[1..]) == multiset(a) - multiset{a[0]};
    assert multiset(b[1..]) == multiset(b) - multiset{b[0]};
  }

  lemma SameLength<T>(a: seq<T>, b: seq<T>)
    requires multiset(a) == multiset(b)
    ensures |a| == |b|
  {
    assert |multiset(a)| == |a| && |multiset(b)| == |b|;
  }

  lemma {:induction false} OrderIsUnique<T(!new)>(le: (T, T) -> bool, a: seq<T>, b: seq<T>)
    requires TotalPreorder(le) && InOrder(le, a) && InOrder(le, b) && Distinguishes(le, a)
    requires multiset(a) == multiset(b)
    ensures a == b
  {
    SameLength(a, b);
    if a != [] {
      SameHead(le, a, b);
      SameTails(a, b);
      TailsKeepOrder(le, a);
      TailsKeepOrder(le, b);
      hide InOrder, Distinguishes, TotalPreorder;
      OrderIsUnique(le, a[1..], b[1..]);
      assert a == [a[0]] + a[1..] && b == [b[0]] + b[1..];
    }
  }

  lemma TailsKeepOrder<T>(le: (T, T) -> bool, items: seq<T>)
    requires items != []
    ensures InOrder(le, items) ==> InOrder(le, items[1..])
    ensures Distinguishes(le, items) ==> Distinguishes(le, items[1..])
  {
  }

  lemma PermutationStaysDistinguished<T(!new)>(le: (T, T) -> bool, a: seq<T>, b: seq<T>)
    requires TotalPreorder(le) && Distinguishes(le, a) && multiset(a) == multiset(b)
    ensures Distinguishes(le, b)
  {
    forall i, j | 0 <= i < j < |b|
      ensures !(le(b[i], b[j]) && le(b[j], b[i]))
    {
      if b[i] == b[j] {
        TwiceIsTwo(b, i, j);
        OnceIsOne(le, a, b[i]);
        assert false;
      } else {
        assert b[i] in multiset(a) && b[j] in multiset(a);
        var k :| 0 <= k < |a| && a[k] == b[i];
        var l :| 0 <= l < |a| && a[l] == b[j];
        if k < l {
        } else {
          assert l < k;
        }
      }
    }
  }

  lemma TwiceIsTwo<T>(items: seq<T>, i: nat, j: nat)
    requires i < j < |items| && items[i] == items[j]
    ensures multiset(items)[items[i]] >= 2
  {
    assert items == items[..i] + [items[i]] + items[i+1..j] + [items[j]] + items[j+1..];
  }

  lemma {:induction false} OnceIsOne<T(!new)>(le: (T, T) -> bool, items: seq<T>, item: T)
    requires TotalPreorder(le) && Distinguishes(le, items)
    ensures multiset(items)[item] <= 1
  {
    if items != [] {
      var rest, last := items[..|items| - 1], items[|items| - 1];
      assert items == rest + [last];
      OnceIsOne(le, rest, item);
      forall k | 0 <= k < |rest|
        ensures rest[k] != last
      {
        assert !(le(items[k], items[|items| - 1]) && le(items[|items| - 1], items[k])) && le(last, last);
      }
    }
  }

  /** Sorting items that the order tells apart forgets the order in which they came. */
  lemma SortForgetsOrder<T(!new)>(le: (T, T) -> bool, a: seq<T>, b: seq<T>)
    requires TotalPreorder(le) && Distinguishes(le, a) && multiset(a) == multiset(b)
    ensures Sort(le, a) == Sort(le, b)
  {
    SortSorts(le, a);
    SortSorts(le, b);
    PermutationStaysDistinguished(le, a, Sort(le, a));
    OrderIsUnique(le, Sort(le, a), Sort(le, b));
  }

  // ----- Sets -----

  /** Each item once. */
  function Distinct<T(==)>(items: seq<T>): seq<T> {
    if items == [] then []
    else
      var rest := Distinct(items[..|items| - 1]);
      if items[|items| - 1] in rest then rest else rest + [items[|items| - 1]]
  }

  lemma {:induction false} DistinctCounts<T>(items: seq<T>, item: T)
    ensures multiset(Distinct(items))[item] == if item in items then 1 else 0
  {
    if items != [] {
      var rest, last := items[..|items| - 1], items[|items| - 1];
      assert items == rest + [last];
      DistinctCounts(rest, item);
      DistinctCounts(rest, last);
    }
  }

  /** The sorted list of a set. */
  function SortedSet<T(==)>(le: (T, T) -> bool, items: seq<T>): seq<T> {
    Sort(le, Distinct(items))
  }

  /** An order that tells different items apart. */
  ghost predicate TotalOrder<T(!new)>(le: (T, T) -> bool) {
    TotalPreorder(le) && forall a, b :: le(a, b) && le(b, a) ==> a == b
  }

  lemma DistinctAreDistinguished<T(!new)>(le: (T, T) -> bool, items: seq<T>)
    requires TotalOrder(le)
    ensures Distinguishes(le, Distinct(items))
  {
    var found := Distinct(items);
    forall i, j | 0 <= i < j < |found|
      ensures !(le(found[i], found[j]) && le(found[j], found[i]))
    {
      if found[i] == found[j] {
        TwiceIsTwo(found, i, j);
        DistinctCounts(items, found[i]);
        assert false;
      }
    }
  }

  /** A sorted set holds each element once, in strict order. */
  lemma SortedSetIsStrict<T(!new)>(le: (T, T) -> bool, items: seq<T>)
    requires TotalOrder(le)
    ensures InOrder(le, SortedSet(le, items)) && Distinguishes(le, SortedSet(le, items))
    ensures forall item :: item in SortedSet(le, items) <==> item in items
  {
    var found := Distinct(items);
    SortSorts(le, found);
    DistinctAreDistinguished(le, items);
    PermutationStaysDistinguished(le, found, Sort(le, found));
    forall item
      ensures item in Sort(le, found) <==> item in items
    {
      DistinctCounts(items, item);
      assert item in Sort(le, found) <==> item in multiset(Sort(le, found));
    }
  }

  /** Sorted sets of the same elements are the same. */
  lemma SortedSetForgetsOrder<T(!new)>(le: (T, T) -> bool, a: seq<T>, b: seq<T>)
    requires TotalOrder(le) && forall item :: item in a <==> item in b
    ensures SortedSet(le, a) == SortedSet(le, b)
  {
    forall item
      ensures multiset(Distinct(a))[item] == multiset(Distinct(b))[item]
    {
      DistinctCounts(a, item);
      DistinctCounts(b, item);
    }
    DistinctAreDistinguished(le, a);
    SortForgetsOrder(le, Distinct(a), Distinct(b));
  }
}
