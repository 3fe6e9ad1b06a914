/** The binary heap under the scheduler: `heappush` and `heappop` on a list laid out as a
    tree, the children of position `i` at `2 * i + 1` and `2 * i + 2`. */
module BinaryHeap {
  import opened Scheduling

  function Parent(i: nat): nat
    requires i > 0
  {
    (i - 1) / 2
  }

  /** The item at `i` is no smaller than the one at `j`. */
  predicate NotLess(heap: seq<Item>, i: nat, j: nat)
    requires i < |heap| && j < |heap|
  {
    !KeyBefore(heap[i], heap[j])
  }

  predicate Settled(heap: seq<Item>, i: nat)
    requires 0 < i < |heap|
  {
    NotLess(heap, i, Parent(i))
  }

  predicate IsHeap(heap: seq<Item>) {
    forall i | 0 < i < |heap| :: Settled(heap, i)
  }

  /** The tuple comparison `a < b`. Its precondition is what keeps it from ever reaching
      the payloads. */
  predicate Compare(a: Item, b: Item)
    requires a.tick != b.tick || a.ordinal != b.ordinal
  {
    KeyBefore(a, b)
  }

  // ---------- The least item is at the root ----------

  lemma {:induction false} RootIsLeast(heap: seq<Item>, i: nat)
    requires IsHeap(heap) && i < |heap|
    ensures NotLess(heap, i, 0)
  {
    if i > 0 {
      assert Settled(heap, i);
      RootIsLeast(heap, Parent(i));
    }
  }

  // ---------- Moving an item up ----------

  /** The items below `pos` fit under its parent. */
  predicate Bridged(heap: seq<Item>, pos: nat) {
    0 < pos < |heap| ==> forall i | 0 < i < |heap| && Parent(i) == pos :: NotLess(heap, i, Parent(pos))
  }

  /** A heap but for the item at `pos`, which may be too small for its parent. */
  predicate HeapButUp(heap: seq<Item>, pos: nat) {
    (forall i | 0 < i < |heap| && i != pos :: Settled(heap, i)) && Bridged(heap, pos)
  }

  lemma MovedUp(heap: seq<Item>, pos: nat)
    requires 0 < pos < |heap| && HeapButUp(heap, pos) && !NotLess(heap, pos, Parent(pos))
    ensures HeapButUp(heap[pos := heap[Parent(pos)]][Parent(pos) := heap[pos]], Parent(pos))
  {
    var parent := Parent(pos);
    var swapped := heap[pos := heap[parent]][parent := heap[pos]];
    forall i | 0 < i < |heap| && i != parent ensures Settled(swapped, i) {
      if i != pos {
        assert Settled(heap, i);
        if Parent(i) == pos { assert NotLess(heap, i, parent); }
      }
    }
    forall i | 0 < i < |heap| && parent > 0 && Parent(i) == parent ensures NotLess(swapped, i, Parent(parent)) {
      assert Settled(heap, parent);
      if i != pos { assert Settled(heap, i); }
    }
  }

  lemma SwapKeepsItems(heap: seq<Item>, i: nat, j: nat)
    requires i < |heap| && j < |heap| && i != j
    ensures multiset(heap[i := heap[j]][j := heap[i]]) == multiset(heap)
  {
  }

  lemma SwapKeepsOrdinals(heap: seq<Item>, i: nat, j: nat)
    requires i < |heap| && j < |heap| && i != j && OrdinalsDistinct(heap)
    ensures OrdinalsDistinct(heap[i := heap[j]][j := heap[i]])
  {
  }

  /** Moving the item of `next` into `pos` and carrying `item` on from there to `next`
      only swaps the two. */
  lemma CarryKeepsItems(heap: seq<Item>, pos: nat, next: nat, item: Item)
    requires pos < |heap| && next < |heap| && pos != next && OrdinalsDistinct(heap[pos := item])
    ensures multiset(heap[pos := heap[next]][next := item]) == multiset(heap[pos := item])
    ensures OrdinalsDistinct(heap[pos := heap[next]][next := item])
  {
    hide OrdinalsDistinct;
    var carried := heap[pos := item];
    assert heap[pos := heap[next]][next := item] == carried[pos := carried[next]][next := carried[pos]];
    SwapKeepsItems(carried, pos, next);
    SwapKeepsOrdinals(carried, pos, next);
  }

  /** `_siftdown` with start 0: carry the item at `from` towards the root, pulling larger
      parents down, until its parent is no larger. */
  method SiftDown(heap: array<Item>, count: nat, from: nat)
    requires from < count <= heap.Length && OrdinalsDistinct(heap[..count]) && HeapButUp(heap[..count], from)
    modifies heap
    ensures IsHeap(heap[..count]) && multiset(heap[..count]) == multiset(old(heap[..count]))
  {
    var item := heap[from];
    var pos := from;
    ghost var items := heap[..count];
    assert items[pos := item] == items;
    while pos > 0
      invariant pos < count && items == heap[..count]
      invariant HeapButUp(items[pos := item], pos)
      invariant OrdinalsDistinct(items[pos := item])
      invariant multiset(items[pos := item]) == multiset(old(heap[..count]))
    {
      hide HeapButUp;
      var parent := Parent(pos);
      ghost var carried := items[pos := item];
      assert carried[parent].ordinal != carried[pos].ordinal;
      if !Compare(item, heap[parent]) {
        break;
      }
      MovedUp(carried, pos);
      CarryKeepsItems(items, pos, parent, item);
      heap[pos] := heap[parent];
      items := items[pos := items[parent]];
      assert items[parent := item] == carried[pos := carried[parent]][parent := carried[pos]];
      pos := parent;
    }
    heap[pos] := item;
    assert heap[..count] == items[pos := item];
  }

  // ---------- Moving a hole down ----------

  /** A heap but for a hole at `pos`: no edge from or into it need hold, but its children
      fit under its parent. */
  predicate HeapButHole(heap: seq<Item>, pos: nat) {
    (forall i | 0 < i < |heap| && i != pos && Parent(i) != pos :: Settled(heap, i)) && Bridged(heap, pos)
  }

  /** Filling the hole with its smaller child moves the hole to that child. */
  lemma HoleMoved(heap: seq<Item>, pos: nat, child: nat)
    requires HeapButHole(heap, pos) && 0 < child < |heap| && Parent(child) == pos
    requires forall i | 0 < i < |heap| && Parent(i) == pos :: NotLess(heap, i, child)
    ensures HeapButHole(heap[pos := heap[child]], child)
  {
    var moved := heap[pos := heap[child]];
    forall i | 0 < i < |heap| && i != child && Parent(i) != child ensures Settled(moved, i) {
      if i == pos {
        assert NotLess(heap, child, Parent(pos));
      } else if Parent(i) == pos {
        assert NotLess(heap, i, child);
      } else {
        assert Settled(heap, i);
      }
    }
    forall i | 0 < i < |heap| && Parent(i) == child ensures NotLess(moved, i, Parent(child)) {
      assert Settled(heap, i);
    }
  }

  /** At a leaf the hole may take any item, which then only has to move up. */
  lemma HoleAtLeaf(heap: seq<Item>, pos: nat, item: Item)
    requires HeapButHole(heap, pos) && pos < |heap| <= 2 * pos + 1
    ensures HeapButUp(heap[pos := item], pos)
  {
    var filled := heap[pos := item];
    forall i | 0 < i < |heap| && i != pos ensures Settled(filled, i) {
      assert Settled(heap, i);
    }
  }

  /** The smaller of the children of `pos`. */
  lemma SmallerChild(heap: seq<Item>, pos: nat, child: nat)
    requires 2 * pos + 1 < |heap| && (child == 2 * pos + 1 || (child == 2 * pos + 2 && child < |heap|))
    requires child == 2 * pos + 1 && child + 1 < |heap| ==> !KeyBefore(heap[child + 1], heap[child])
    requires child == 2 * pos + 2 ==> !KeyBefore(heap[child - 1], heap[child])
    ensures Parent(child) == pos && forall i | 0 < i < |heap| && Parent(i) == pos :: NotLess(heap, i, child)
  {
    forall i | 0 < i < |heap| && Parent(i) == pos ensures NotLess(heap, i, child) {
      assert i == 2 * pos + 1 || i == 2 * pos + 2;
    }
  }

  lemma ChildrenDiffer(heap: seq<Item>, pos: nat, item: Item)
    requires 2 * pos + 2 < |heap| && OrdinalsDistinct(heap[pos := item])
    ensures heap[2 * pos + 1].ordinal != heap[2 * pos + 2].ordinal
  {
    var filled := heap[pos := item];
    assert filled[2 * pos + 1].ordinal != filled[2 * pos + 2].ordinal;
  }

  /** `_siftup` with position 0: let the hole at the root sink along the smaller children
      to a leaf, drop the item there, and carry it up to its place. */
  method SiftUp(heap: array<Item>, count: nat, item: Item)
    requires 0 < count <= heap.Length
    requires OrdinalsDistinct(heap[..count][0 := item]) && HeapButHole(heap[..count], 0)
    modifies heap
    ensures IsHeap(heap[..count]) && multiset(heap[..count]) == multiset(old(heap[..count])[0 := item])
  {
    var pos, child := 0, 1;
    ghost var items := heap[..count];
    while child < count
      invariant pos < count && child == 2 * pos + 1 && items == heap[..count]
      invariant HeapButHole(items, pos)
      invariant OrdinalsDistinct(items[pos := item])
      invariant multiset(items[pos := item]) == multiset(old(heap[..count])[0 := item])
      decreases count - pos
    {
      hide HeapButHole, IsHeap, OrdinalsDistinct;
      var right := child + 1;
      if right < count {
        ChildrenDiffer(items, pos, item);
        if !Compare(heap[child], heap[right]) {
          child := right;
        }
      }
      SmallerChild(items, pos, child);
      HoleMoved(items, pos, child);
      CarryKeepsItems(items, pos, child, item);
      heap[pos] := heap[child];
      items := items[pos := items[child]];
      pos := child;
      child := 2 * pos + 1;
    }
    hide HeapButHole, HeapButUp, IsHeap;
    HoleAtLeaf(items, pos, item);
    heap[pos] := item;
    assert heap[..count] == items[pos := item];
    SiftDown(heap, count, pos);
  }

  // ---------- Push and pop ----------

  lemma PushedBehind(heap: seq<Item>, item: Item)
    requires IsHeap(heap)
    ensures HeapButUp(heap + [item], |heap|)
  {
    var more := heap + [item];
    forall i | 0 < i < |more| && i != |heap| ensures Settled(more, i) {
      assert Settled(heap, i);
    }
  }

  lemma HoleAtRoot(heap: seq<Item>, front: seq<Item>)
    requires IsHeap(heap) && front <= heap
    ensures HeapButHole(front, 0)
  {
    forall i | 0 < i < |front| && Parent(i) != 0 ensures Settled(front, i) {
      assert Settled(heap, i);
    }
  }

  predicate Pushed(items: seq<Item>, pushed: seq<Item>, item: Item) {
    IsHeap(pushed) && multiset(pushed) == multiset(items) + multiset{item}
  }

  /** `heappush`, with room for one more item behind the heap. */
  method Push(heap: array<Item>, count: nat, item: Item)
    requires count < heap.Length && IsHeap(heap[..count]) && OrdinalsDistinct(heap[..count] + [item])
    modifies heap
    ensures Pushed(old(heap[..count]), heap[..count + 1], item)
  {
    ghost var items := heap[..count];
    PushedBehind(items, item);
    heap[count] := item;
    assert heap[..count + 1] == items + [item];
    SiftDown(heap, count + 1, count);
  }

  lemma LeastOfRest(heap: seq<Item>, rest: seq<Item>, x: Item)
    requires |heap| > 0 && IsHeap(heap) && OrdinalsDistinct(heap)
    requires multiset(heap) == multiset(rest) + multiset{heap[0]} && x in rest
    ensures KeyBefore(heap[0], x)
  {
    assert x in multiset(rest);
    OncePerItem(heap, heap[0]);
    assert x in multiset(heap) && x != heap[0];
    var i :| 0 <= i < |heap| && heap[i] == x;
    RootIsLeast(heap, i);
    assert heap[0].ordinal != heap[i].ordinal;
  }

  predicate Popped(items: seq<Item>, rest: seq<Item>, least: Item) {
    && IsHeap(rest) && multiset(items) == multiset(rest) + multiset{least}
    && forall x | x in rest :: KeyBefore(least, x)
  }

  /** `heappop`: the last item fills the place of the least. */
  method Pop(heap: array<Item>, count: nat) returns (least: Item)
    requires 0 < count <= heap.Length && IsHeap(heap[..count]) && OrdinalsDistinct(heap[..count])
    modifies heap
    ensures least == old(heap[0]) && Popped(old(heap[..count]), heap[..count - 1], least)
  {
    ghost var items := heap[..count];
    var last := heap[count - 1];
    ghost var front := heap[..count - 1];
    assert items == front + [last];
    if count == 1 {
      return last;
    }
    least := heap[0];
    assert front == [least] + front[1..];
    HoleAtRoot(items, front);
    RefilledFront(items);
    SiftUp(heap, count - 1, last);
    ghost var rest := heap[..count - 1];
    assert front[0 := last] == [last] + front[1..];
    forall x | x in rest ensures KeyBefore(least, x) {
      LeastOfRest(items, rest, x);
    }
  }

  lemma RefilledFront(items: seq<Item>)
    requires |items| > 1 && OrdinalsDistinct(items)
    ensures OrdinalsDistinct(items[..|items| - 1][0 := items[|items| - 1]])
  {
  }
}
