/** The mutable clock and scheduler. The scheduler keeps its queue as a binary heap over
    a clock it may share with others; each method is proved to do what the schedule of
    `Scheduling` does. */
module Schedulers {
  import opened Wrappers
  import opened Sql
  import opened Scheduling
  import BinaryHeap

  class LogicalClock {
    var tick: nat

    constructor ()
      ensures tick == 0
    {
      tick := 0;
    }

    method Advance(steps: int) returns (r: Result<nat, ClockError>)
      modifies this
      ensures r == Scheduling.Advance(old(tick), steps)
      ensures tick == if r.Ok? then r.value else old(tick)
    {
      if steps < 0 {
        return Err(NegativeNumber);
      }
      if steps == 0 {
        return Err(NotPositive);
      }
      tick := tick + steps;
      return Ok(tick);
    }

    method AdvanceTo(target: int) returns (r: Result<nat, ClockError>)
      modifies this
      ensures r == Scheduling.AdvanceTo(old(tick), target)
      ensures tick == if r.Ok? then r.value else old(tick)
    {
      if target < 0 {
        return Err(NegativeNumber);
      }
      if target < tick {
        return Err(BackwardMove);
      }
      tick := target;
      return Ok(tick);
    }
  }

  /** The root of the heap is the head of the ranking. */
  lemma RootIsHead(heap: seq<Item>, ranking: seq<Item>)
    requires BinaryHeap.IsHeap(heap) && Ranked(ranking) && OrdinalsDistinct(heap)
    requires multiset(heap) == multiset(ranking)
    ensures |heap| == |ranking|
    ensures |heap| > 0 ==> heap[0] == ranking[0]
  {
    assert |heap| == |multiset(heap)| == |multiset(ranking)| == |ranking|;
    if |heap| > 0 {
      assert heap[0] in multiset(ranking) && ranking[0] in multiset(heap);
      RankedFirst(ranking, heap[0]);
      var i :| 0 <= i < |heap| && heap[i] == ranking[0];
      BinaryHeap.RootIsLeast(heap, i);
    }
  }

  /** Heaps with the same items have the same distinct, bounded ordinals. */
  lemma SameOrdinals(heap: seq<Item>, items: seq<Item>, next: nat)
    requires multiset(heap) == multiset(items) && OrdinalsDistinct(items) && OrdinalsBelow(items, next)
    ensures OrdinalsDistinct(heap) && OrdinalsBelow(heap, next)
  {
    forall i | 0 <= i < |heap| ensures heap[i].ordinal < next {
      assert heap[i] in multiset(items);
    }
    forall i, j | 0 <= i < j < |heap| ensures heap[i].ordinal != heap[j].ordinal {
      assert heap[i] in multiset(items) && heap[j] in multiset(items);
      if heap[i] == heap[j] {
        OncePerItem(items, heap[i]);
        TwiceInHeap(heap, i, j);
        assert false;
      }
    }
  }

  lemma TwiceInHeap(heap: seq<Item>, i: nat, j: nat)
    requires i < j < |heap| && heap[i] == heap[j]
    ensures multiset(heap)[heap[i]] >= 2
  {
    assert heap == heap[..j] + [heap[j]] + heap[j + 1..];
    assert heap[..j][i] in multiset(heap[..j]);
  }

  /** A heap of items and its ranking, with every ordinal below `next`. */
  predicate Holds(items: seq<Item>, ranking: seq<Item>, next: nat) {
    && BinaryHeap.IsHeap(items)
    && Ranked(ranking) && OrdinalsDistinct(ranking) && OrdinalsBelow(ranking, next)
    && multiset(ranking) == multiset(items)
  }

  lemma PushReady(items: seq<Item>, ranking: seq<Item>, item: Item)
    requires Holds(items, ranking, item.ordinal)
    ensures BinaryHeap.IsHeap(items) && OrdinalsDistinct(items + [item])
  {
    hide BinaryHeap.IsHeap;
    InsertRanks(ranking, item);
    InsertOrderedMembers(ranking, item, EarlierTick);
    SameOrdinals(items + [item], InsertOrdered(ranking, item, EarlierTick), item.ordinal + 1);
  }

  lemma PushHolds(items: seq<Item>, pushed: seq<Item>, ranking: seq<Item>, item: Item)
    requires Holds(items, ranking, item.ordinal)
    requires BinaryHeap.Pushed(items, pushed, item)
    ensures Holds(pushed, InsertOrdered(ranking, item, EarlierTick), item.ordinal + 1)
  {
    hide BinaryHeap.IsHeap;
    InsertRanks(ranking, item);
    InsertOrderedMembers(ranking, item, EarlierTick);
  }

  lemma PopReady(items: seq<Item>, ranking: seq<Item>, next: nat)
    requires Holds(items, ranking, next)
    ensures BinaryHeap.IsHeap(items) && OrdinalsDistinct(items) && |items| == |ranking|
    ensures |items| > 0 ==> items[0] == ranking[0]
  {
    SameOrdinals(items, ranking, next);
    RootIsHead(items, ranking);
  }

  lemma PopHolds(items: seq<Item>, rest: seq<Item>, ranking: seq<Item>, next: nat)
    requires Holds(items, ranking, next) && |ranking| > 0
    requires BinaryHeap.Popped(items, rest, ranking[0])
    ensures Holds(rest, ranking[1..], next)
  {
    hide BinaryHeap.IsHeap, KeyBefore;
    PopKeepsInv(Schedule(0, next, ranking));
    RankedTail(ranking);
  }

  class DeterministicScheduler {
    const clock: LogicalClock
    var nextOrdinal: nat
    var queue: array<Item>
    var count: nat
    ghost var ranking: seq<Item>

    ghost predicate Valid()
      reads this, queue
    {
      count <= queue.Length && Holds(queue[..count], ranking, nextOrdinal)
    }

    ghost function Value(): Schedule
      reads this, clock
    {
      Schedule(clock.tick, nextOrdinal, ranking)
    }

    constructor (shared: LogicalClock)
      ensures Valid() && clock == shared && fresh(queue) && Value() == Begin(shared.tick)
    {
      clock := shared;
      nextOrdinal, count, ranking := 0, 0, [];
      queue := new Item[] [];
    }

    /** The number of queued items. */
    method Length() returns (n: nat)
      requires Valid()
      ensures n == |Value().items|
    {
      PopReady(queue[..count], ranking, nextOrdinal);
      return count;
    }

    /** Room for one more item, with the queued ones where they were. */
    method Reserve(item: Item)
      requires count <= queue.Length
      modifies this`queue
      ensures count < queue.Length && queue[..count] == old(queue[..count])
      ensures queue == old(queue) || fresh(queue)
    {
      if count == queue.Length {
        var current := queue;
        queue := new Item[2 * count + 1](i reads current => if 0 <= i < current.Length then current[i] else item);
      }
    }

    method Enqueue(item: Item)
      requires count <= queue.Length && Holds(queue[..count], ranking, item.ordinal) && nextOrdinal == item.ordinal + 1
      modifies this`queue, this`count, this`ranking, queue
      ensures count <= queue.Length && Holds(queue[..count], ranking, nextOrdinal)
      ensures queue == old(queue) || fresh(queue)
      ensures ranking == InsertOrdered(old(ranking), item, EarlierTick)
    {
      hide *;
      ghost var items := queue[..count];
      PushReady(items, ranking, item);
      Reserve(item);
      var heap, n := queue, count;
      assert heap[..n] == items;
      BinaryHeap.Push(heap, n, item);
      PushHolds(items, heap[..n + 1], ranking, item);
      count := n + 1;
      ranking := InsertOrdered(ranking, item, EarlierTick);
    }

    method ScheduleAt(tick: int, payload: Payload) returns (outcome: Outcome)
      requires Valid()
      modifies this, queue
      ensures Valid() && (queue == old(queue) || fresh(queue))
      ensures (Value(), outcome) == Scheduling.ScheduleAt(old(Value()), tick, payload)
      ensures outcome.Scheduled? <==> tick >= 0 && tick >= old(clock.tick)
      ensures outcome.Scheduled? ==> outcome.item == Item(tick, old(nextOrdinal), payload)
    {
      hide InsertOrdered, Holds;
      if tick < 0 {
        return Refused(NegativeNumber);
      }
      if tick < clock.tick {
        return Refused(InThePast);
      }
      var item := Item(tick, nextOrdinal, payload);
      nextOrdinal := nextOrdinal + 1;
      Enqueue(item);
      return Scheduled(item);
    }

    method ScheduleAfter(delay: int, payload: Payload) returns (outcome: Outcome)
      requires Valid()
      modifies this, queue
      ensures Valid() && (queue == old(queue) || fresh(queue))
      ensures (Value(), outcome) == Scheduling.ScheduleAfter(old(Value()), delay, payload)
      ensures outcome.Scheduled? <==> delay >= 0
      ensures outcome.Scheduled? ==> outcome.item == Item(old(clock.tick) + delay, old(nextOrdinal), payload)
    {
      hide InsertOrdered, Holds;
      if delay < 0 {
        return Refused(NegativeNumber);
      }
      outcome := ScheduleAt(clock.tick + delay, payload);
    }

    method PopNext() returns (outcome: Outcome)
      requires Valid()
      modifies this, queue, clock
      ensures Valid() && queue == old(queue)
      ensures (Value(), outcome) == Scheduling.PopNext(old(Value()))
    {
      hide Holds, OrdinalsDistinct, BinaryHeap.IsHeap, BinaryHeap.Popped;
      ghost var items := queue[..count];
      PopReady(items, ranking, nextOrdinal);
      if count == 0 {
        return NothingToPop;
      }
      if queue[0].tick < clock.tick {
        return Refused(StaleItem);
      }
      var item := BinaryHeap.Pop(queue, count);
      count := count - 1;
      PopHolds(items, queue[..count], ranking, nextOrdinal);
      ranking := ranking[1..];
      var advanced := clock.AdvanceTo(item.tick);
      return Popped(item);
    }
  }
}
