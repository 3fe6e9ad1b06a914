/** What scheduling and advancing mean for the pops that follow: the tick an item comes out
    at, its place among the others, and which later pop is refused. */
module SchedulingLaws {
  import opened Sql
  import opened Scheduling

  /** Scheduling is refused exactly for a tick that is negative or has passed, and then
      changes nothing. */
  lemma ScheduleRefusedExactly(s: Schedule, tick: int, payload: Payload)
    ensures ScheduleAt(s, tick, payload).1.Refused? <==> tick < 0 || tick < s.clock
    ensures ScheduleAt(s, tick, payload).1.Refused? ==>
              ScheduleAt(s, tick, payload) == (s, Refused(if tick < 0 then NegativeNumber else InThePast))
    ensures ScheduleAfter(s, tick, payload).1.Refused? <==> tick < 0
    ensures ScheduleAfter(s, tick, payload).1.Refused? ==>
              ScheduleAfter(s, tick, payload) == (s, Refused(NegativeNumber))
  {
  }

  /** The queue with an item put behind everything due no later. */
  predicate PutBetween(before: seq<Item>, item: Item, after: seq<Item>, items: seq<Item>) {
    && items == before + after
    && (forall i | 0 <= i < |before| :: before[i].tick <= item.tick)
    && (forall i | 0 <= i < |after| :: after[i].tick > item.tick)
  }

  lemma {:induction false} InsertedBetween(items: seq<Item>, item: Item) returns (before: seq<Item>, after: seq<Item>)
    requires forall i, j | 0 <= i < j < |items| :: items[i].tick <= items[j].tick
    ensures PutBetween(before, item, after, items)
    ensures InsertOrdered(items, item, EarlierTick) == before + [item] + after
  {
    if |items| == 0 || !EarlierTick(item, items[|items| - 1]) {
      before, after := items, [];
    } else {
      var init, last := items[..|items| - 1], items[|items| - 1];
      var middle;
      before, middle := InsertedBetween(init, item);
      after := middle + [last];
      assert items == init + [last];
    }
  }

  lemma TicksNeverFall(s: Schedule)
    requires Inv(s)
    ensures forall i, j | 0 <= i < j < |s.items| :: s.items[i].tick <= s.items[j].tick
  {
    forall i, j | 0 <= i < j < |s.items| ensures s.items[i].tick <= s.items[j].tick {
      assert KeyBefore(s.items[i], s.items[j]);
    }
  }

  lemma NothingStale(s: Schedule, next: Schedule, before: seq<Item>, item: Item, after: seq<Item>)
    requires !Stale(s) && s.items == before + after && next.items == before + [item] + after
    requires next.clock == s.clock <= item.tick
    ensures !Stale(next)
  {
    assert forall i | 0 <= i < |s.items| :: s.items[i].tick >= s.clock;
    forall i | 0 <= i < |next.items| ensures next.items[i].tick >= s.clock {
      if i < |before| {
        assert next.items[i] == s.items[i];
      } else if i > |before| {
        assert next.items[i] == s.items[i - 1];
      }
    }
  }

  /** An item scheduled at a tick comes out at that tick with its payload, behind every
      queued item due no later and before every other, when the queue is drained. */
  lemma ScheduledThenDrained(s: Schedule, tick: int, payload: Payload) returns (before: seq<Item>, after: seq<Item>)
    requires Inv(s) && !Stale(s) && tick >= s.clock
    ensures var item := Item(tick, s.next, payload);
            && PutBetween(before, item, after, s.items)
            && Drain(ScheduleAt(s, tick, payload).0).1 == before + [item] + after
            && Drain(ScheduleAt(s, tick, payload).0).0.clock
               == if |after| > 0 then after[|after| - 1].tick else tick
  {
    hide Ranked, OrdinalsBelow, OrdinalsDistinct, Stale;
    var item := Item(tick, s.next, payload);
    TicksNeverFall(s);
    before, after := InsertedBetween(s.items, item);
    var next := ScheduleAt(s, tick, payload).0;
    assert Step(s, ScheduleAtCall(tick, payload)).0 == next;
    StepKeepsInv(s, ScheduleAtCall(tick, payload));
    NothingStale(s, next, before, item, after);
    DrainExact(next);
    assert |next.items| > 0;
    var last := next.items[|next.items| - 1];
    assert last.tick == if |after| > 0 then after[|after| - 1].tick else tick;
    assert last.tick >= s.clock;
  }

  /** On an empty queue a delay is waited out exactly: draining leaves the clock `delay`
      later and hands out the payload at that tick. */
  lemma DelayWaitedOut(s: Schedule, delay: int, payload: Payload)
    requires s.items == [] && delay >= 0
    ensures var drained := Drain(ScheduleAfter(s, delay, payload).0);
            drained.0.clock == s.clock + delay && drained.1 == [Item(s.clock + delay, s.next, payload)]
  {
    var before, after := ScheduledThenDrained(s, s.clock + delay, payload);
    assert before == [] && after == [];
  }

  lemma DueTickReached(s: Schedule, tick: int, payload: Payload)
    requires s.items == [] && tick >= s.clock
    ensures var drained := Drain(ScheduleAt(s, tick, payload).0);
            drained.0.clock == tick && drained.1 == [Item(tick, s.next, payload)]
  {
    var before, after := ScheduledThenDrained(s, tick, payload);
    assert before == [] && after == [];
  }

  // ---------- Advancing the clock under the queue ----------

  lemma ThreeCalls(s: Schedule, a: Call, b: Call, c: Call)
    ensures var (t, x) := Step(s, a);
            var (u, y) := Step(t, b);
            var (v, z) := Step(u, c);
            Run(s, [a, b, c]) == (v, [x, y, z])
  {
    hide Step;
    var (t, x) := Step(s, a);
    var (u, y) := Step(t, b);
    var (v, z) := Step(u, c);
    FirstOfRun(s, a, [b, c]);
    FirstOfRun(t, b, [c]);
    FirstOfRun(u, c, []);
    assert [c] + [] == [c] && [b] + [c] == [b, c] && [a] + [b, c] == [a, b, c];
    assert [z] + [] == [z] && [y] + [z] == [y, z] && [x] + [y, z] == [x, y, z];
  }

  lemma FirstOfRun(s: Schedule, c: Call, calls: seq<Call>)
    ensures var (next, outcome) := Step(s, c);
            Run(s, [c] + calls) == (Run(next, calls).0, [outcome] + Run(next, calls).1)
  {
    hide Step;
    assert ([c] + calls)[1..] == calls;
  }

  /** An item due at a tick survives a move of the clock exactly up to its tick: advancing
      by `steps` refuses the pop if and only if that passes the tick, and otherwise the pop
      hands the item out at its tick. */
  lemma AdvancePasses(s: Schedule, tick: nat, steps: int, payload: Payload)
    requires s.items == [] && tick >= s.clock
    ensures var outcomes := Run(s, [ScheduleAtCall(tick, payload), AdvanceCall(steps), PopCall]).1;
            var after := Run(s, [ScheduleAtCall(tick, payload), AdvanceCall(steps), PopCall]).0;
            && (outcomes[1].Refused? <==> steps <= 0)
            && (steps > 0 ==> outcomes[1] == Ticked(s.clock + steps))
            && (outcomes[2].Refused? <==> steps > 0 && tick - s.clock < steps)
            && (!outcomes[2].Refused? ==> outcomes[2] == Popped(Item(tick, s.next, payload)) && after.clock == tick)
  {
    ThreeCalls(s, ScheduleAtCall(tick, payload), AdvanceCall(steps), PopCall);
  }

  /** The same for a move to a tick. */
  lemma MovePasses(s: Schedule, tick: nat, target: int, payload: Payload)
    requires s.items == [] && tick >= s.clock
    ensures var outcomes := Run(s, [ScheduleAtCall(tick, payload), AdvanceToCall(target), PopCall]).1;
            var after := Run(s, [ScheduleAtCall(tick, payload), AdvanceToCall(target), PopCall]).0;
            && (outcomes[1].Refused? <==> target < s.clock)
            && (target >= s.clock ==> outcomes[1] == Ticked(target))
            && (outcomes[2].Refused? <==> target > tick)
            && (!outcomes[2].Refused? ==> outcomes[2] == Popped(Item(tick, s.next, payload)) && after.clock == tick)
  {
    ThreeCalls(s, ScheduleAtCall(tick, payload), AdvanceToCall(target), PopCall);
  }
}
