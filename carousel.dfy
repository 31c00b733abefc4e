/** The carousel content block: its slides in `order` order, and the side the text is on. */
module Carousel {
  import opened Wrappers

  datatype CarouselItem = CarouselItem(id: string, src: string, alt: Option<string>, order: int)

  /** `contentPosition === "right"`: the row is reversed exactly for text on the right. */
  predicate Reverse(contentPosition: string) {
    contentPosition == "right"
  }

  predicate Sorted(s: seq<CarouselItem>) {
    forall i, j :: 0 <= i < j < |s| ==> s[i].order <= s[j].order
  }

  /** `x` placed after every item whose order is not greater than its own. */
  function Insert(s: seq<CarouselItem>, x: CarouselItem): (r: seq<CarouselItem>)
    ensures |r| == |s| + 1
    ensures multiset(r) == multiset(s) + multiset{x}
  {
    if s == [] then [x]
    else if s[0].order > x.order then [x] + s
    else
      assert s == [s[0]] + s[1..];
      [s[0]] + Insert(s[1..], x)
  }

  /** `[...items].sort((a, b) => a.order - b.order)`: a stable sort of a copy, modelled as
      insertion of each item in turn. */
  function SortByOrder(items: seq<CarouselItem>): (r: seq<CarouselItem>)
    ensures |r| == |items|
    decreases |items|
  {
    if items == [] then [] else Insert(SortByOrder(items[..|items| - 1]), items[|items| - 1])
  }

  /** Every item of `Insert(s, x)` is `x` or an item of `s`. */
  lemma InsertMembers(s: seq<CarouselItem>, x: CarouselItem, y: CarouselItem)
    requires y in Insert(s, x)
    ensures y == x || y in s
  {
    assert y in multiset(Insert(s, x));
  }

  /** An item no later than every item of a sorted list can go in front of it. */
  lemma ConsSorted(a: CarouselItem, u: seq<CarouselItem>)
    requires Sorted(u)
    requires forall j :: 0 <= j < |u| ==> a.order <= u[j].order
    ensures Sorted([a] + u)
  {
    var r := [a] + u;
    forall i, j | 0 <= i < j < |r| ensures r[i].order <= r[j].order {
      assert r[j] == u[j - 1];
      if i > 0 {
        assert r[i] == u[i - 1];
      }
    }
  }

  lemma {:induction false} InsertSorted(s: seq<CarouselItem>, x: CarouselItem)
    requires Sorted(s)
    ensures Sorted(Insert(s, x))
  {
    if s == [] || s[0].order > x.order {
      assert Insert(s, x) == [x] + s;
      forall j | 0 <= j < |s| ensures x.order <= s[j].order {
        assert s[0].order <= s[j].order;
      }
      ConsSorted(x, s);
    } else {
      var t := s[1..];
      var u := Insert(t, x);
      forall i, j | 0 <= i < j < |t| ensures t[i].order <= t[j].order {
        assert t[i] == s[i + 1] && t[j] == s[j + 1];
      }
      InsertSorted(t, x);
      forall j | 0 <= j < |u| ensures s[0].order <= u[j].order {
        InsertMembers(t, x, u[j]);
      }
      assert Insert(s, x) == [s[0]] + u;
      ConsSorted(s[0], u);
    }
  }

  lemma {:induction false} SortByOrderSorted(items: seq<CarouselItem>)
    ensures Sorted(SortByOrder(items))
    decreases |items|
  {
    if items != [] {
      var n := |items| - 1;
      var front := items[..n];
      SortByOrderSorted(front);
      InsertSorted(SortByOrder(front), items[n]);
    }
  }

  lemma {:induction false} SortByOrderPermutes(items: seq<CarouselItem>)
    ensures multiset(SortByOrder(items)) == multiset(items)
    decreases |items|
  {
    if items != [] {
      var n := |items| - 1;
      var front, x := items[..n], items[n];
      var sorted := SortByOrder(front);
      assert items == front + [x];
      calc {
        multiset(SortByOrder(items));
        multiset(Insert(sorted, x));
        multiset(sorted) + multiset{x};
        { SortByOrderPermutes(front); }
        multiset(front) + multiset([x]);
        multiset(items);
      }
    }
  }

  /** The rendered slides are sorted by `order` and are exactly the given items. */
  lemma SortByOrderCorrect(items: seq<CarouselItem>)
    ensures Sorted(SortByOrder(items))
    ensures multiset(SortByOrder(items)) == multiset(items)
  {
    SortByOrderSorted(items);
    SortByOrderPermutes(items);
  }

  /** The items with a given order, in sequence. */
  function WithOrder(s: seq<CarouselItem>, k: int): seq<CarouselItem> {
    if s == [] then [] else (if s[0].order == k then [s[0]] else []) + WithOrder(s[1..], k)
  }

  lemma {:induction false} WithOrderAppend(s: seq<CarouselItem>, x: CarouselItem, k: int)
    ensures WithOrder(s + [x], k) == WithOrder(s, k) + (if x.order == k then [x] else [])
  {
    if s == [] {
      assert s + [x] == [x] + [];
      WithOrderCons(x, [], k);
    } else {
      var t := s[1..];
      assert s == [s[0]] + t;
      assert s + [x] == [s[0]] + (t + [x]);
      WithOrderCons(s[0], t + [x], k);
      WithOrderCons(s[0], t, k);
      WithOrderAppend(t, x, k);
    }
  }

  lemma {:induction false} WithOrderNone(s: seq<CarouselItem>, k: int)
    requires forall i :: 0 <= i < |s| ==> s[i].order != k
    ensures WithOrder(s, k) == []
  {
    if s != [] {
      WithOrderNone(s[1..], k);
    }
  }

  lemma WithOrderCons(a: CarouselItem, t: seq<CarouselItem>, k: int)
    ensures WithOrder([a] + t, k) == (if a.order == k then [a] else []) + WithOrder(t, k)
  {
    assert ([a] + t)[0] == a && ([a] + t)[1..] == t;
  }

  /** An item with a smaller order than the whole sorted list goes in front of it. */
  lemma WithOrderInsertFront(s: seq<CarouselItem>, x: CarouselItem, k: int)
    requires Sorted(s) && (s == [] || s[0].order > x.order)
    ensures WithOrder(Insert(s, x), k) == WithOrder(s, k) + (if x.order == k then [x] else [])
  {
    assert Insert(s, x) == [x] + s;
    WithOrderCons(x, s, k);
    if x.order == k {
      forall i | 0 <= i < |s| ensures s[i].order != k {
        assert s[0].order <= s[i].order;
      }
      WithOrderNone(s, k);
    }
  }

  lemma {:induction false} WithOrderInsert(s: seq<CarouselItem>, x: CarouselItem, k: int)
    requires Sorted(s)
    ensures WithOrder(Insert(s, x), k) == WithOrder(s, k) + (if x.order == k then [x] else [])
  {
    if s == [] || s[0].order > x.order {
      WithOrderInsertFront(s, x, k);
    } else {
      var t := s[1..];
      assert s == [s[0]] + t;
      forall i, j | 0 <= i < j < |t| ensures t[i].order <= t[j].order {
        assert t[i] == s[i + 1] && t[j] == s[j + 1];
      }
      var u := Insert(t, x);
      assert Insert(s, x) == [s[0]] + u;
      WithOrderCons(s[0], u, k);
      WithOrderCons(s[0], t, k);
      WithOrderInsert(t, x, k);
    }
  }

  /** The sort is stable: items with equal `order` keep their relative order. */
  lemma {:induction false} SortByOrderStable(items: seq<CarouselItem>, k: int)
    ensures WithOrder(SortByOrder(items), k) == WithOrder(items, k)
    decreases |items|
  {
    if items != [] {
      var n := |items| - 1;
      var front, x := items[..n], items[n];
      var sorted := SortByOrder(front);
      var tail := if x.order == k then [x] else [];
      assert items == front + [x];
      calc {
        WithOrder(SortByOrder(items), k);
        WithOrder(Insert(sorted, x), k);
        { SortByOrderSorted(front); WithOrderInsert(sorted, x, k); }
        WithOrder(sorted, k) + tail;
        { SortByOrderStable(front, k); }
        WithOrder(front, k) + tail;
        { WithOrderAppend(front, x, k); }
        WithOrder(items, k);
      }
    }
  }

  /** A slide's image and its alt text, `item.alt ?? ""`. */
  datatype Slide = Slide(src: string, alt: string)

  /** The slides in their rendered order. */
  function Slides(items: seq<CarouselItem>): seq<Slide> {
    var sorted := SortByOrder(items);
    seq(|sorted|, i requires 0 <= i < |sorted| => Slide(sorted[i].src, sorted[i].alt.GetOr("")))
  }
}
