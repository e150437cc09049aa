/**
 The binary heap behind each band of the transaction pool: the sift-up and sift-down
 loops of Go's container/heap over a slice of items.
 */
module PriorityQueue {
  import opened Common
  import opened Encoding

  datatype Item = Item(tx: Transaction, addedAt: int, priority: int)

  /** Higher priority first, then the earlier one. */
  predicate Less(a: Item, b: Item) {
    if a.priority != b.priority then a.priority > b.priority else a.addedAt < b.addedAt
  }

  /** a may be handed out before b: its priority is higher, or it is the same and a is not later. */
  predicate InOrder(a: Item, b: Item) {
    a.priority > b.priority || (a.priority == b.priority && a.addedAt <= b.addedAt)
  }

  /** The comparison of the source tells the order. */
  lemma LessTellsOrder(a: Item, b: Item)
    ensures InOrder(a, b) <==> !Less(b, a)
  {
  }

  function Parent(k: int): (p: int)
    requires k > 0
    ensures 0 <= p < k
  {
    (k - 1) / 2
  }

  function Swapped(s: seq<Item>, i: nat, j: nat): (r: seq<Item>)
    requires i < |s| && j < |s|
    ensures |r| == |s|
  {
    s[i := s[j]][j := s[i]]
  }

  /** No item among the first n is better than its parent. */
  ghost predicate Heap(s: seq<Item>, n: nat)
    requires n <= |s|
  {
    forall k :: 0 < k < n ==> InOrder(s[Parent(k)], s[k])
  }

  function Up(s: seq<Item>, j: nat): (r: seq<Item>)
    requires j < |s|
    ensures |r| == |s|
    decreases j
  {
    if j == 0 || !Less(s[j], s[Parent(j)]) then s else Up(Swapped(s, Parent(j), j), Parent(j))
  }

  /** The better child of i among the first n. */
  function Child(s: seq<Item>, i: nat, n: nat): (j: nat)
    requires 2 * i + 1 < n <= |s|
    ensures i < j < n && Parent(j) == i
  {
    if 2 * i + 2 < n && Less(s[2 * i + 2], s[2 * i + 1]) then 2 * i + 2 else 2 * i + 1
  }

  function Down(s: seq<Item>, i: nat, n: nat): (r: seq<Item>)
    requires i <= n <= |s|
    ensures |r| == |s|
    decreases n - i
  {
    if 2 * i + 1 >= n || !Less(s[Child(s, i, n)], s[i]) then s
    else Down(Swapped(s, i, Child(s, i, n)), Child(s, i, n), n)
  }

  function Pushed(s: seq<Item>, x: Item): seq<Item> {
    Up(s + [x], |s|)
  }

  /** The slice before its last element is cut off. */
  function Sunk(s: seq<Item>): (r: seq<Item>)
    requires s != []
    ensures |r| == |s|
  {
    Down(Swapped(s, 0, |s| - 1), 0, |s| - 1)
  }

  function Popped(s: seq<Item>): (r: (Item, seq<Item>))
    requires s != []
    ensures |r.1| == |s| - 1
  {
    (Sunk(s)[|s| - 1], Sunk(s)[..|s| - 1])
  }

  // ------------------------------------------------------------------ order

  /** The heap holds except that item j may be better than its parent. */
  ghost predicate HeapAbove(s: seq<Item>, j: nat)
    requires j < |s|
  {
    && (forall k :: 0 < k < |s| && k != j ==> InOrder(s[Parent(k)], s[k]))
    && (forall k :: 0 < k < |s| && Parent(k) == j && j > 0 ==> InOrder(s[Parent(j)], s[k]))
  }

  lemma SwapUp(s: seq<Item>, j: nat)
    requires 0 < j < |s| && HeapAbove(s, j) && Less(s[j], s[Parent(j)])
    ensures HeapAbove(Swapped(s, Parent(j), j), Parent(j))
  {
    var i := Parent(j);
    var t := Swapped(s, i, j);
    forall k | 0 < k < |t| && k != i
      ensures InOrder(t[Parent(k)], t[k])
    {
      assert k != j ==> InOrder(s[Parent(k)], s[k]);
    }
    forall k | 0 < k < |t| && Parent(k) == i && i > 0
      ensures InOrder(t[Parent(i)], t[k])
    {
      assert InOrder(s[Parent(i)], s[i]);
      assert k != j ==> InOrder(s[Parent(k)], s[k]);
    }
  }

  lemma {:induction false} UpRestoresHeap(s: seq<Item>, j: nat)
    requires j < |s| && HeapAbove(s, j)
    ensures Heap(Up(s, j), |s|)
    decreases j
  {
    if j > 0 && Less(s[j], s[Parent(j)]) {
      SwapUp(s, j);
      hide HeapAbove, Swapped, Less, Parent;
      UpRestoresHeap(Swapped(s, Parent(j), j), Parent(j));
    }
  }

  /** The heap of the first n holds except that item i may be worse than its children. */
  ghost predicate HeapBelow(s: seq<Item>, i: nat, n: nat)
    requires i <= n <= |s|
  {
    && (forall k :: 0 < k < n && Parent(k) != i ==> InOrder(s[Parent(k)], s[k]))
    && (forall k :: 0 < k < n && Parent(k) == i && i > 0 ==> InOrder(s[Parent(i)], s[k]))
  }

  lemma ChildIsBest(s: seq<Item>, i: nat, n: nat, k: nat)
    requires 2 * i + 1 < n <= |s| && 0 < k < n && Parent(k) == i
    ensures InOrder(s[Child(s, i, n)], s[k])
  {
    assert k == 2 * i + 1 || k == 2 * i + 2;
  }

  lemma SwapDown(s: seq<Item>, i: nat, n: nat)
    requires 2 * i + 1 < n <= |s| && HeapBelow(s, i, n) && Less(s[Child(s, i, n)], s[i])
    ensures HeapBelow(Swapped(s, i, Child(s, i, n)), Child(s, i, n), n)
  {
    var j := Child(s, i, n);
    var t := Swapped(s, i, j);
    forall k | 0 < k < n && Parent(k) != j
      ensures InOrder(t[Parent(k)], t[k])
    {
      if Parent(k) == i { ChildIsBest(s, i, n, k); }
      hide Child, Parent;
    }
    forall k | 0 < k < n && Parent(k) == j
      ensures InOrder(t[Parent(j)], t[k])
    {
      hide Child;
      assert InOrder(s[Parent(k)], s[k]);
    }
  }

  lemma {:induction false} DownRestoresHeap(s: seq<Item>, i: nat, n: nat)
    requires i <= n <= |s| && HeapBelow(s, i, n)
    ensures Heap(Down(s, i, n), n)
    decreases n - i
  {
    if 2 * i + 1 < n {
      if Less(s[Child(s, i, n)], s[i]) {
        SwapDown(s, i, n);
        hide HeapBelow, Swapped, Less, Child, Heap;
        DownRestoresHeap(Swapped(s, i, Child(s, i, n)), Child(s, i, n), n);
      } else {
        forall k | 0 < k < n
          ensures InOrder(s[Parent(k)], s[k])
        {
          if Parent(k) == i { ChildIsBest(s, i, n, k); }
          hide Child, Parent;
        }
      }
    }
  }

  /** The first item of a heap is the best. */
  lemma {:induction false} TopIsBest(s: seq<Item>, n: nat, k: nat)
    requires n <= |s| && Heap(s, n) && k < n
    ensures InOrder(s[0], s[k])
  {
    if k > 0 {
      TopIsBest(s, n, Parent(k));
      assert InOrder(s[Parent(k)], s[k]);
    }
  }

  // ------------------------------------------------------------------ contents

  lemma SwapKeepsItems(s: seq<Item>, i: nat, j: nat)
    requires i < |s| && j < |s|
    ensures multiset(Swapped(s, i, j)) == multiset(s)
  {
  }

  lemma {:induction false} UpKeepsItems(s: seq<Item>, j: nat)
    requires j < |s|
    ensures multiset(Up(s, j)) == multiset(s)
    decreases j
  {
    if j > 0 && Less(s[j], s[Parent(j)]) {
      SwapKeepsItems(s, Parent(j), j);
      hide Swapped, Less, Parent;
      UpKeepsItems(Swapped(s, Parent(j), j), Parent(j));
    }
  }

  /** Sifting down moves only the first n items. */
  lemma {:induction false} DownKeepsItems(s: seq<Item>, i: nat, n: nat)
    requires i <= n <= |s|
    ensures multiset(Down(s, i, n)) == multiset(s)
    ensures Down(s, i, n)[n..] == s[n..]
    decreases n - i
  {
    if 2 * i + 1 < n && Less(s[Child(s, i, n)], s[i]) {
      SwapKeepsItems(s, i, Child(s, i, n));
      assert Swapped(s, i, Child(s, i, n))[n..] == s[n..];
      hide Swapped, Less, Child;
      DownKeepsItems(Swapped(s, i, Child(s, i, n)), Child(s, i, n), n);
    }
  }

  /** Pushing adds one item and keeps the heap. */
  lemma PushAdds(s: seq<Item>, x: Item)
    requires Heap(s, |s|)
    ensures Heap(Pushed(s, x), |s| + 1) && |Pushed(s, x)| == |s| + 1
    ensures multiset(Pushed(s, x)) == multiset(s) + multiset{x}
  {
    var t := s + [x];
    forall k | 0 < k < |t| && k != |s|
      ensures InOrder(t[Parent(k)], t[k])
    {
      assert InOrder(s[Parent(k)], s[k]);
    }
    UpRestoresHeap(t, |s|);
    UpKeepsItems(t, |s|);
  }

  /** Popping takes out exactly one item, which no item in the heap is better than, and keeps the heap. */
  lemma PopTakesBest(s: seq<Item>)
    requires s != [] && Heap(s, |s|)
    ensures Popped(s).0 == s[0]
    ensures Heap(Popped(s).1, |s| - 1)
    ensures multiset(s) == multiset(Popped(s).1) + multiset{Popped(s).0}
    ensures forall y :: y in s ==> InOrder(Popped(s).0, y)
  {
    var n := |s| - 1;
    var t := Swapped(s, 0, n);
    SwappedTop(s);
    SwapKeepsItems(s, 0, n);
    DownRestoresHeap(t, 0, n);
    DownKeepsItems(t, 0, n);
    hide Down, HeapBelow, Swapped, Less;
    LastAndRest(Sunk(s));
    assert Sunk(s)[n] == Sunk(s)[n..][0] == t[n..][0];
    forall y | y in s
      ensures InOrder(s[0], y)
    {
      var k :| 0 <= k < |s| && s[k] == y;
      TopIsBest(s, |s|, k);
    }
    HeapPrefix(Sunk(s), n);
  }

  lemma HeapPrefix(s: seq<Item>, n: nat)
    requires n <= |s| && Heap(s, n)
    ensures Heap(s[..n], n)
  {
    hide Less;
  }

  lemma SwappedTop(s: seq<Item>)
    requires s != [] && Heap(s, |s|)
    ensures HeapBelow(Swapped(s, 0, |s| - 1), 0, |s| - 1)
    ensures Swapped(s, 0, |s| - 1)[|s| - 1] == s[0]
  {
  }

  lemma LastAndRest(s: seq<Item>)
    requires s != []
    ensures multiset(s) == multiset(s[..|s| - 1]) + multiset{s[|s| - 1]}
  {
    assert s == s[..|s| - 1] + [s[|s| - 1]];
  }

  // ------------------------------------------------------------------ the queue as an object

  class Queue {
    var items: seq<Item>

    constructor ()
      ensures items == []
    {
      items := [];
    }

    method Swap(i: nat, j: nat)
      requires i < |items| && j < |items|
      modifies this
      ensures items == Swapped(old(items), i, j)
    {
      items := items[i := items[j]][j := items[i]];
    }

    method Push(x: Item)
      modifies this
      ensures items == Pushed(old(items), x)
    {
      items := items + [x];
      var j := |items| - 1;
      while true
        invariant 0 <= j < |items|
        invariant Up(items, j) == Pushed(old(items), x)
        decreases j
      {
        var i := if j == 0 then 0 else (j - 1) / 2;
        if i == j || !Less(items[j], items[i]) { break; }
        Swap(i, j);
        j := i;
      }
    }

    method Pop() returns (item: Item)
      requires items != []
      modifies this
      ensures (item, items) == Popped(old(items))
    {
      var n := |items| - 1;
      Swap(0, n);
      SiftDown(0, n);
      item := items[n];
      items := items[..n];
    }

    method SiftDown(start: nat, n: nat)
      requires start <= n <= |items|
      modifies this
      ensures items == Down(old(items), start, n)
    {
      var i := start;
      while true
        invariant i <= n <= |items|
        invariant Down(items, i, n) == Down(old(items), start, n)
        decreases n - i
      {
        var j := 2 * i + 1;
        if j >= n { break; }
        if j + 1 < n && Less(items[j + 1], items[j]) {
          j := j + 1;
        }
        assert j == Child(items, i, n);
        if !Less(items[j], items[i]) { break; }
        Swap(i, j);
        i := j;
      }
    }
  }
}
