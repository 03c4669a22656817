/** The order of `tb ls` (sortListItems in cli/list.go): everything by priority and number,
    and then, in place, the done tasks among themselves by completion. */
module ListSort {

  /** A task as the sort sees it: its priority's rank, its number, and, for a done task, when
      it was completed, if its log says so. */
  datatype Item = Item(id: string, rank: int, number: int, done: bool, parsed: bool, completedAt: int)

  predicate PriorityLess(a: Item, b: Item) { if a.rank != b.rank then a.rank < b.rank else a.number < b.number }

  predicate CompletionLess(a: Item, b: Item) {
    if a.parsed != b.parsed then a.parsed
    else if a.parsed && a.completedAt != b.completedAt then a.completedAt > b.completedAt
    else PriorityLess(a, b)
  }

  // ---------------------------------------------------------------- the comparators

  /** What sort.Slice asks of its comparator. */
  ghost predicate StrictWeakOrder(less: (Item, Item) -> bool) {
    && (forall a :: !less(a, a))
    && (forall a, b, c :: less(a, b) && less(b, c) ==> less(a, c))
    && (forall a, b, c :: !less(a, b) && !less(b, c) ==> !less(a, c))
  }

  lemma ComparatorsAreStrictWeakOrders()
    ensures StrictWeakOrder(PriorityLess) && StrictWeakOrder(CompletionLess)
  {
  }

  /** What sort.Slice leaves, for an order that says nothing about how ties fall. */
  ghost predicate IsSort(r: seq<Item>, s: seq<Item>, less: (Item, Item) -> bool) {
    multiset(r) == multiset(s) && forall i, j :: 0 <= i < j < |r| ==> !less(r[j], r[i])
  }

  // ---------------------------------------------------------------- the done slots

  function Dones(s: seq<Item>): seq<Item> {
    if s == [] then []
    else
      var n := |s| - 1;
      if s[n].done then Dones(s[..n]) + [s[n]] else Dones(s[..n])
  }

  function Others(s: seq<Item>): seq<Item> {
    if s == [] then []
    else
      var n := |s| - 1;
      if s[n].done then Others(s[..n]) else Others(s[..n]) + [s[n]]
  }

  /** The indices of the done items. */
  function Slots(s: seq<Item>): seq<nat> {
    if s == [] then []
    else
      var n := |s| - 1;
      if s[n].done then Slots(s[..n]) + [n] else Slots(s[..n])
  }

  /** `s` with its done items replaced by `d`, left to right. */
  function Placed(s: seq<Item>, d: seq<Item>): (r: seq<Item>)
    requires |d| == |Dones(s)|
    ensures |r| == |s|
  {
    if s == [] then []
    else
      var n := |s| - 1;
      if s[n].done then Placed(s[..n], d[..|d| - 1]) + [d[|d| - 1]] else Placed(s[..n], d) + [s[n]]
  }

  lemma {:induction false} SlotsOfDones(s: seq<Item>)
    ensures |Slots(s)| == |Dones(s)|
    ensures forall k :: 0 <= k < |Slots(s)| ==>
              Slots(s)[k] < |s| && Dones(s)[k] == s[Slots(s)[k]] && s[Slots(s)[k]].done
    ensures forall k, l :: 0 <= k < l < |Slots(s)| ==> Slots(s)[k] < Slots(s)[l]
  {
    if s != [] {
      SlotsOfDones(s[..|s| - 1]);
    }
  }

  /** Placing is writing into the slots, one by one. */
  lemma {:induction false} PlacedAt(s: seq<Item>, d: seq<Item>)
    requires |d| == |Dones(s)| == |Slots(s)|
    ensures forall i :: 0 <= i < |s| && !s[i].done ==> Placed(s, d)[i] == s[i]
    ensures forall k :: 0 <= k < |d| ==> Slots(s)[k] < |s| && Placed(s, d)[Slots(s)[k]] == d[k]
  {
    if s != [] {
      var n := |s| - 1;
      SlotsOfDones(s[..n]);
      PlacedAt(s[..n], if s[n].done then d[..|d| - 1] else d);
    }
  }

  lemma {:induction false} EveryDoneHasASlot(s: seq<Item>, i: nat)
    requires i < |s| && s[i].done
    ensures i in Slots(s)
  {
    var n := |s| - 1;
    if i < n {
      EveryDoneHasASlot(s[..n], i);
    }
  }

  method SortDoneSlotsByCompletion(items: array<Item>, sortedDone: seq<Item>)
    requires IsSort(sortedDone, Dones(items[..]), CompletionLess)
    modifies items
    ensures |sortedDone| == |Dones(old(items[..]))|
    ensures items[..] == Placed(old(items[..]), sortedDone)
  {
    ghost var s := items[..];
    assert |sortedDone| == |Dones(s)| by {
      assert |multiset(sortedDone)| == |multiset(Dones(s))|;
    }
    var doneIndexes: seq<nat> := [];
    var doneItems: seq<Item> := [];
    for i := 0 to items.Length
      invariant items[..] == s && doneIndexes == Slots(s[..i]) && doneItems == Dones(s[..i])
    {
      assert s[..i + 1][..i] == s[..i] && s[i] == items[i];
      if items[i].done {
        doneIndexes := doneIndexes + [i];
        doneItems := doneItems + [items[i]];
      }
    }
    assert s[..|s|] == s;
    SlotsOfDones(s);
    PlacedAt(s, sortedDone);
    if |doneItems| < 2 {
      OneItemIsSorted(sortedDone, Dones(s));
      PlacedSame(s);
      return;
    }
    doneItems := sortedDone;
    for k := 0 to |doneItems|
      invariant forall i :: 0 <= i < |s| && !s[i].done ==> items[i] == s[i]
      invariant forall l :: 0 <= l < k ==> items[doneIndexes[l]] == sortedDone[l]
    {
      items[doneIndexes[k]] := doneItems[k];
    }
    forall i | 0 <= i < |s|
      ensures items[i] == Placed(s, sortedDone)[i]
    {
      if s[i].done {
        EveryDoneHasASlot(s, i);
        var k :| 0 <= k < |doneIndexes| && doneIndexes[k] == i;
      }
    }
  }

  lemma OneItemIsSorted(r: seq<Item>, s: seq<Item>)
    requires multiset(r) == multiset(s) && |s| < 2
    ensures r == s
  {
    assert |multiset(r)| == |multiset(s)|;
    if |s| == 1 {
      assert s[0] in multiset(s) && r[0] in multiset(r);
      assert multiset(s) == multiset{s[0]};
    }
  }

  lemma {:induction false} PlacedSame(s: seq<Item>)
    ensures Placed(s, Dones(s)) == s
  {
    if s != [] {
      var n := |s| - 1;
      PlacedSame(s[..n]);
    }
  }

  /** `sorted` and `sortedDone` are what the library's sort makes of the two slices. */
  method SortListItems(items: array<Item>, sorted: seq<Item>, sortedDone: seq<Item>)
    requires IsSort(sorted, items[..], PriorityLess) && IsSort(sortedDone, Dones(sorted), CompletionLess)
    modifies items
    ensures |sortedDone| == |Dones(sorted)| && items[..] == Placed(sorted, sortedDone)
  {
    assert |sorted| == items.Length by {
      assert |multiset(sorted)| == |multiset(items[..])|;
    }
    for i := 0 to items.Length
      invariant forall j :: 0 <= j < i ==> items[j] == sorted[j]
    {
      items[i] := sorted[i];
    }
    assert items[..] == sorted;
    SortDoneSlotsByCompletion(items, sortedDone);
  }

  // ---------------------------------------------------------------- the laws

  lemma {:induction false} SplitsIntoDoneAndOther(s: seq<Item>)
    ensures multiset(s) == multiset(Dones(s)) + multiset(Others(s))
  {
    if s != [] {
      var n := |s| - 1;
      SplitsIntoDoneAndOther(s[..n]);
      assert s == s[..n] + [s[n]];
    }
  }

  lemma PlacedSnoc(s: seq<Item>, d: seq<Item>)
    requires s != [] && |d| == |Dones(s)|
    ensures var n := |s| - 1;
            Placed(s, d)
            == if s[n].done then Placed(s[..n], d[..|d| - 1]) + [d[|d| - 1]] else Placed(s[..n], d) + [s[n]]
  {
  }

  lemma SnocParts(s: seq<Item>, x: Item)
    ensures Dones(s + [x]) == if x.done then Dones(s) + [x] else Dones(s)
    ensures Others(s + [x]) == if x.done then Others(s) else Others(s) + [x]
  {
    assert (s + [x])[..|s|] == s;
  }

  /** After placing, the other items are as they were, and the done items are the placed
      ones, in their order. */
  lemma {:induction false} PlacedParts(s: seq<Item>, d: seq<Item>)
    requires |d| == |Dones(s)| && forall k :: 0 <= k < |d| ==> d[k].done
    ensures Dones(Placed(s, d)) == d && Others(Placed(s, d)) == Others(s)
  {
    if s != [] {
      var n := |s| - 1;
      PlacedSnoc(s, d);
      if s[n].done {
        var m := |d| - 1;
        var p := Placed(s[..n], d[..m]);
        PlacedParts(s[..n], d[..m]);
        SnocParts(p, d[m]);
        assert Dones(p + [d[m]]) == d[..m] + [d[m]];
      } else {
        var p := Placed(s[..n], d);
        PlacedParts(s[..n], d);
        SnocParts(p, s[n]);
      }
    }
  }

  lemma PlacedKeepsTheOthers(s: seq<Item>, d: seq<Item>)
    requires |d| == |Dones(s)| && forall k :: 0 <= k < |d| ==> d[k].done
    ensures forall i :: 0 <= i < |s| ==> Placed(s, d)[i].done == s[i].done && (!s[i].done ==> Placed(s, d)[i] == s[i])
  {
    SlotsOfDones(s);
    PlacedAt(s, d);
    forall i | 0 <= i < |s| && s[i].done
      ensures Placed(s, d)[i].done
    {
      EveryDoneHasASlot(s, i);
      var k :| 0 <= k < |Slots(s)| && Slots(s)[k] == i;
    }
  }

  lemma {:induction false} DonesAreDone(s: seq<Item>)
    ensures forall k :: 0 <= k < |Dones(s)| ==> Dones(s)[k].done
  {
    if s != [] {
      DonesAreDone(s[..|s| - 1]);
    }
  }

  lemma SortedDonesAreDone(d: seq<Item>, s: seq<Item>)
    requires multiset(d) == multiset(Dones(s))
    ensures |d| == |Dones(s)| && forall k :: 0 <= k < |d| ==> d[k].done
  {
    DonesAreDone(s);
    assert |multiset(d)| == |multiset(Dones(s))|;
    forall k | 0 <= k < |d|
      ensures d[k].done
    {
      assert d[k] in multiset(d);
      assert d[k] in Dones(s);
    }
  }

  /** The listing is a permutation of the tasks. Tasks that are not done stand exactly where
      the order by priority and number puts them; done tasks take the remaining places, those
      with a completion date first, the newest first, and by priority and number otherwise. */
  lemma ListingIsOrdered(s: seq<Item>, sorted: seq<Item>, sortedDone: seq<Item>)
    requires IsSort(sorted, s, PriorityLess) && IsSort(sortedDone, Dones(sorted), CompletionLess)
    ensures |sortedDone| == |Dones(sorted)|
    ensures var r := Placed(sorted, sortedDone);
            && multiset(r) == multiset(s)
            && (forall i :: 0 <= i < |r| ==> r[i].done == sorted[i].done && (!r[i].done ==> r[i] == sorted[i]))
            && (forall i, j :: 0 <= i < j < |r| && r[i].done && r[j].done ==> !CompletionLess(r[j], r[i]))
  {
    SortedDonesAreDone(sortedDone, sorted);
    var r := Placed(sorted, sortedDone);
    PlacedParts(sorted, sortedDone);
    PlacedKeepsTheOthers(sorted, sortedDone);
    SplitsIntoDoneAndOther(sorted);
    SplitsIntoDoneAndOther(r);
    DonesInOrder(r);
  }

  lemma DonesInOrder(r: seq<Item>)
    requires forall k, l :: 0 <= k < l < |Dones(r)| ==> !CompletionLess(Dones(r)[l], Dones(r)[k])
    ensures forall i, j :: 0 <= i < j < |r| && r[i].done && r[j].done ==> !CompletionLess(r[j], r[i])
  {
    SlotsOfDones(r);
    forall i, j | 0 <= i < j < |r| && r[i].done && r[j].done
      ensures !CompletionLess(r[j], r[i])
    {
      EveryDoneHasASlot(r, i);
      EveryDoneHasASlot(r, j);
      var k :| 0 <= k < |Slots(r)| && Slots(r)[k] == i;
      var l :| 0 <= l < |Slots(r)| && Slots(r)[l] == j;
      assert k < l;
    }
  }

  /** By rank, and by number on a tie. */
  predicate NotAfter(a: Item, b: Item) { a.rank < b.rank || (a.rank == b.rank && a.number <= b.number) }

  /** The listing in the tasks' own fields. Of two done tasks, the one with a completion date
      comes first, and of two with one the newer; without a difference in that, as of two tasks
      that are not done, the one of lower rank, and then of lower number. */
  lemma ListingByFields(s: seq<Item>, sorted: seq<Item>, sortedDone: seq<Item>, i: nat, j: nat)
    requires IsSort(sorted, s, PriorityLess) && IsSort(sortedDone, Dones(sorted), CompletionLess)
    requires i < j < |s|
    ensures |sortedDone| == |Dones(sorted)| && |Placed(sorted, sortedDone)| == |s|
    ensures var a, b := Placed(sorted, sortedDone)[i], Placed(sorted, sortedDone)[j];
            && (a.done && b.done ==>
                  && (b.parsed ==> a.parsed)
                  && (a.parsed && b.parsed ==> a.completedAt >= b.completedAt)
                  && (a.parsed == b.parsed && (a.parsed ==> a.completedAt == b.completedAt) ==> NotAfter(a, b)))
            && (!a.done && !b.done ==> NotAfter(a, b))
  {
    SameLength(sorted, s);
    ListingIsOrdered(s, sorted, sortedDone);
    var a, b := Placed(sorted, sortedDone)[i], Placed(sorted, sortedDone)[j];
    if !a.done && !b.done {
      assert !PriorityLess(sorted[j], sorted[i]);
    } else if a.done && b.done {
      assert !CompletionLess(b, a);
    }
  }

  /** No two tasks have the same number. */
  ghost predicate DistinctNumbers(s: seq<Item>) {
    forall a, b :: a in multiset(s) && b in multiset(s) && a.number == b.number ==> a == b
  }

  ghost predicate InOrder(r: seq<Item>, less: (Item, Item) -> bool) {
    forall i, j :: 0 <= i < j < |r| ==> !less(r[j], r[i])
  }

  /** The order ties no two of the items. */
  ghost predicate TellsApart(m: multiset<Item>, less: (Item, Item) -> bool) {
    forall a, b :: a in m && b in m && !less(a, b) && !less(b, a) ==> a == b
  }

  lemma SameLast(r: seq<Item>, t: seq<Item>, less: (Item, Item) -> bool)
    requires multiset(r) == multiset(t) && InOrder(r, less) && InOrder(t, less) && |r| == |t| > 0
    requires TellsApart(multiset(r), less)
    ensures r[|r| - 1] == t[|t| - 1]
  {
    var x, y := r[|r| - 1], t[|t| - 1];
    assert x in multiset(t) && y in multiset(r);
    var i :| 0 <= i < |t| && t[i] == x;
    var j :| 0 <= j < |r| && r[j] == y;
    assert i < |t| - 1 ==> !less(y, x);
    assert j < |r| - 1 ==> !less(x, y);
  }

  lemma FrontOf(r: seq<Item>)
    requires r != []
    ensures multiset(r[..|r| - 1]) == multiset(r) - multiset{r[|r| - 1]}
  {
    assert r == r[..|r| - 1] + [r[|r| - 1]];
  }

  lemma SameLength(r: seq<Item>, t: seq<Item>)
    requires multiset(r) == multiset(t)
    ensures |r| == |t|
  {
    assert |multiset(r)| == |multiset(t)|;
  }

  lemma FrontTellsApart(r: seq<Item>, less: (Item, Item) -> bool)
    requires r != [] && TellsApart(multiset(r), less) && InOrder(r, less)
    ensures TellsApart(multiset(r[..|r| - 1]), less) && InOrder(r[..|r| - 1], less)
  {
    FrontOf(r);
  }

  lemma InOrderFront(t: seq<Item>, less: (Item, Item) -> bool)
    requires t != [] && InOrder(t, less)
    ensures InOrder(t[..|t| - 1], less)
  {
  }

  lemma FrontAndLast(r: seq<Item>)
    requires r != []
    ensures r == r[..|r| - 1] + [r[|r| - 1]]
  {
  }

  /** Under an order that tells all items apart, there is only one sorted arrangement. */
  lemma {:induction false} SortIsUnique(r: seq<Item>, t: seq<Item>, less: (Item, Item) -> bool)
    requires multiset(r) == multiset(t) && InOrder(r, less) && InOrder(t, less)
    requires TellsApart(multiset(r), less)
    ensures r == t
    decreases |r|
  {
    SameLength(r, t);
    if r != [] {
      SameLast(r, t, less);
      FrontOf(r);
      FrontOf(t);
      FrontTellsApart(r, less);
      InOrderFront(t, less);
      SortIsUnique(r[..|r| - 1], t[..|t| - 1], less);
      FrontAndLast(r);
      FrontAndLast(t);
    }
  }

  lemma NumbersTellApart(s: seq<Item>)
    requires DistinctNumbers(s)
    ensures TellsApart(multiset(s), PriorityLess) && TellsApart(multiset(s), CompletionLess)
  {
  }

  lemma SomeAreDone(s: seq<Item>, x: Item)
    requires x in multiset(Dones(s))
    ensures x in multiset(s)
  {
    SplitsIntoDoneAndOther(s);
  }

  /** However the library breaks ties, the listing of tasks with different numbers is one. */
  lemma ListingIsUnique(s: seq<Item>, r1: seq<Item>, d1: seq<Item>, r2: seq<Item>, d2: seq<Item>)
    requires DistinctNumbers(s)
    requires IsSort(r1, s, PriorityLess) && IsSort(d1, Dones(r1), CompletionLess)
    requires IsSort(r2, s, PriorityLess) && IsSort(d2, Dones(r2), CompletionLess)
    ensures r1 == r2 && d1 == d2
  {
    NumbersTellApart(s);
    SortIsUnique(r1, r2, PriorityLess);
    forall x | x in multiset(d1)
      ensures x in multiset(s)
    {
      SomeAreDone(r1, x);
    }
    SortIsUnique(d1, d2, CompletionLess);
  }

  // ---------------------------------------------------------------- there is always a sort

  function Insert(x: Item, s: seq<Item>, less: (Item, Item) -> bool): seq<Item> {
    if s == [] || !less(x, s[|s| - 1]) then s + [x] else Insert(x, s[..|s| - 1], less) + [s[|s| - 1]]
  }

  function Sort(s: seq<Item>, less: (Item, Item) -> bool): seq<Item> {
    if s == [] then [] else Insert(s[|s| - 1], Sort(s[..|s| - 1], less), less)
  }

  lemma OneMoreLast(t: seq<Item>, y: Item, less: (Item, Item) -> bool)
    requires InOrder(t, less) && forall e :: e in t ==> !less(y, e)
    ensures InOrder(t + [y], less)
  {
  }

  lemma LastIsNotBelow(s: seq<Item>, x: Item, less: (Item, Item) -> bool)
    requires StrictWeakOrder(less) && InOrder(s, less) && s != [] && !less(x, s[|s| - 1])
    ensures forall e :: e in s ==> !less(x, e)
  {
    var n := |s| - 1;
    forall e | e in s
      ensures !less(x, e)
    {
      var i :| 0 <= i < |s| && s[i] == e;
      assert i < n ==> !less(s[n], s[i]);
    }
  }

  lemma NoneAbove(x: Item, s: seq<Item>, t: seq<Item>, y: Item, less: (Item, Item) -> bool)
    requires StrictWeakOrder(less) && InOrder(s + [y], less) && less(x, y) && multiset(t) == multiset(s) + multiset{x}
    ensures forall e :: e in t ==> !less(y, e)
  {
    forall e | e in t
      ensures !less(y, e)
    {
      assert e in multiset(t);
      if e != x {
        var i :| 0 <= i < |s| && s[i] == e;
        assert (s + [y])[i] == e && (s + [y])[|s|] == y;
      }
    }
  }

  lemma {:induction false} InsertKeepsOrder(x: Item, s: seq<Item>, less: (Item, Item) -> bool)
    requires StrictWeakOrder(less) && InOrder(s, less)
    ensures InOrder(Insert(x, s, less), less) && multiset(Insert(x, s, less)) == multiset(s) + multiset{x}
  {
    if s != [] && less(x, s[|s| - 1]) {
      var n := |s| - 1;
      var t := Insert(x, s[..n], less);
      assert s == s[..n] + [s[n]];
      InsertKeepsOrder(x, s[..n], less);
      NoneAbove(x, s[..n], t, s[n], less);
      OneMoreLast(t, s[n], less);
    } else if s != [] {
      LastIsNotBelow(s, x, less);
      OneMoreLast(s, x, less);
    }
  }

  /** The library's sort has something to return: its contract can always be met. */
  lemma {:induction false} SortExists(s: seq<Item>, less: (Item, Item) -> bool)
    requires StrictWeakOrder(less)
    ensures IsSort(Sort(s, less), s, less)
  {
    if s != [] {
      var n := |s| - 1;
      SortExists(s[..n], less);
      InsertKeepsOrder(s[n], Sort(s[..n], less), less);
      LastApart(s, n);
    }
  }

  lemma LastApart(s: seq<Item>, n: nat)
    requires |s| == n + 1
    ensures multiset(s) == multiset(s[..n]) + multiset{s[n]}
  {
    assert s == s[..n] + [s[n]];
  }
}
