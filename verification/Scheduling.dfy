/** Logical time and the schedule on it, as values: a queue kept in stable order of tick,
    coupled to a clock that pops move forward and that others may advance. */
module Scheduling {
  import opened Wrappers
  import opened Sql

  /** Any payload at all: nothing here ever looks inside one. */
  type Payload(==, !new)

  datatype Item = Item(tick: nat, ordinal: nat, payload: Payload)

  datatype Schedule = Schedule(clock: nat, next: nat, items: seq<Item>)

  datatype ClockError = NegativeNumber | NotPositive | BackwardMove | InThePast | StaleItem

  datatype Call =
    | ScheduleAtCall(tick: int, payload: Payload)
    | ScheduleAfterCall(delay: int, payload: Payload)
    | PopCall
    | AdvanceCall(steps: int)
    | AdvanceToCall(target: int)

  datatype Outcome =
    | Scheduled(item: Item)
    | Popped(item: Item)
    | NothingToPop
    | Ticked(tick: nat)
    | Refused(error: ClockError)

  function Begin(clock: nat): Schedule {
    Schedule(clock, 0, [])
  }

  predicate EarlierTick(a: Item, b: Item) {
    a.tick < b.tick
  }

  // ---------- Steps ----------

  function Advance(clock: nat, steps: int): Result<nat, ClockError> {
    if steps < 0 then Err(NegativeNumber) else if steps == 0 then Err(NotPositive) else Ok(clock + steps)
  }

  function AdvanceTo(clock: nat, target: int): Result<nat, ClockError> {
    if target < 0 then Err(NegativeNumber) else if target < clock then Err(BackwardMove) else Ok(target)
  }

  function ScheduleAt(s: Schedule, tick: int, payload: Payload): (Schedule, Outcome) {
    if tick < 0 then (s, Refused(NegativeNumber))
    else if tick < s.clock then (s, Refused(InThePast))
    else
      var item := Item(tick, s.next, payload);
      (Schedule(s.clock, s.next + 1, InsertOrdered(s.items, item, EarlierTick)), Scheduled(item))
  }

  function ScheduleAfter(s: Schedule, delay: int, payload: Payload): (Schedule, Outcome) {
    if delay < 0 then (s, Refused(NegativeNumber)) else ScheduleAt(s, s.clock + delay, payload)
  }

  function PopNext(s: Schedule): (Schedule, Outcome) {
    if |s.items| == 0 then (s, NothingToPop)
    else if s.items[0].tick < s.clock then (s, Refused(StaleItem))
    else (Schedule(s.items[0].tick, s.next, s.items[1..]), Popped(s.items[0]))
  }

  function MoveClock(s: Schedule, moved: Result<nat, ClockError>): (Schedule, Outcome) {
    match moved
    case Ok(tick) => (s.(clock := tick), Ticked(tick))
    case Err(error) => (s, Refused(error))
  }

  function Step(s: Schedule, c: Call): (Schedule, Outcome) {
    match c
    case ScheduleAtCall(tick, payload) => ScheduleAt(s, tick, payload)
    case ScheduleAfterCall(delay, payload) => ScheduleAfter(s, delay, payload)
    case PopCall => PopNext(s)
    case AdvanceCall(steps) => MoveClock(s, Advance(s.clock, steps))
    case AdvanceToCall(target) => MoveClock(s, AdvanceTo(s.clock, target))
  }

  /** Any interleaving of scheduler calls and outside clock advances. */
  function Run(s: Schedule, calls: seq<Call>): (r: (Schedule, seq<Outcome>))
    ensures |r.1| == |calls|
    decreases |calls|
  {
    if |calls| == 0 then (s, [])
    else
      var (next, outcome) := Step(s, calls[0]);
      var (final, outcomes) := Run(next, calls[1..]);
      (final, [outcome] + outcomes)
  }

  // ---------- Order of the queue ----------

  /** The tuple comparison the heap makes, up to the payload it never reaches. */
  predicate KeyBefore(a: Item, b: Item) {
    a.tick < b.tick || (a.tick == b.tick && a.ordinal < b.ordinal)
  }

  predicate Ranked(items: seq<Item>) {
    forall i, j | 0 <= i < j < |items| :: KeyBefore(items[i], items[j])
  }

  predicate OrdinalsBelow(items: seq<Item>, next: nat) {
    forall i | 0 <= i < |items| :: items[i].ordinal < next
  }

  predicate OrdinalsDistinct(items: seq<Item>) {
    forall i, j | 0 <= i < j < |items| :: items[i].ordinal != items[j].ordinal
  }

  /** What every reachable schedule satisfies. */
  predicate Inv(s: Schedule) {
    Ranked(s.items) && OrdinalsBelow(s.items, s.next) && OrdinalsDistinct(s.items)
  }

  lemma InsertedItem(items: seq<Item>, item: Item, x: Item)
    ensures x in InsertOrdered(items, item, EarlierTick) <==> x == item || x in items
  {
    var more := InsertOrdered(items, item, EarlierTick);
    InsertOrderedMembers(items, item, EarlierTick);
    assert x in multiset(more) <==> x in multiset(items) + multiset{item};
    assert x in multiset(items) <==> x in items;
  }

  /** One more item behind all others. */
  lemma AppendRanks(items: seq<Item>, last: Item, next: nat)
    requires Ranked(items) && OrdinalsBelow(items, next) && OrdinalsDistinct(items)
    requires forall x | x in items :: KeyBefore(x, last) && x.ordinal != last.ordinal
    requires last.ordinal < next
    ensures Ranked(items + [last]) && OrdinalsBelow(items + [last], next) && OrdinalsDistinct(items + [last])
  {
  }

  lemma RankedBehind(items: seq<Item>)
    requires |items| > 0 && Ranked(items) && OrdinalsDistinct(items)
    ensures forall x | x in items[..|items| - 1] ::
              KeyBefore(x, items[|items| - 1]) && x.ordinal != items[|items| - 1].ordinal
  {
    var init := items[..|items| - 1];
    forall x | x in init ensures KeyBefore(x, items[|items| - 1]) && x.ordinal != items[|items| - 1].ordinal {
      var k :| 0 <= k < |init| && init[k] == x;
      assert items[k] == x;
    }
  }

  /** Inserting by tick alone ranks the new item behind its equals: its ordinal is the
      greatest so far, so no tie is ever left to the payloads. */
  lemma {:induction false} InsertRanks(items: seq<Item>, item: Item)
    requires Ranked(items) && OrdinalsBelow(items, item.ordinal) && OrdinalsDistinct(items)
    ensures var more := InsertOrdered(items, item, EarlierTick);
            Ranked(more) && OrdinalsBelow(more, item.ordinal + 1) && OrdinalsDistinct(more)
  {
    if |items| > 0 && EarlierTick(item, items[|items| - 1]) {
      var init, last := items[..|items| - 1], items[|items| - 1];
      InsertRanks(init, item);
      RankedBehind(items);
      forall x | x in InsertOrdered(init, item, EarlierTick) ensures KeyBefore(x, last) && x.ordinal != last.ordinal {
        InsertedItem(init, item, x);
      }
      AppendRanks(InsertOrdered(init, item, EarlierTick), last, item.ordinal + 1);
    } else {
      if |items| > 0 { RankedBehind(items); }
      AppendRanks(items, item, item.ordinal + 1);
    }
  }

  lemma PopKeepsInv(s: Schedule)
    requires Inv(s) && |s.items| > 0
    ensures Inv(s.(items := s.items[1..]))
  {
  }

  lemma StepKeepsInv(s: Schedule, c: Call)
    requires Inv(s)
    ensures Inv(Step(s, c).0) && Step(s, c).0.clock >= s.clock && Step(s, c).0.next >= s.next
  {
    if c.PopCall? && |s.items| > 0 { PopKeepsInv(s); }
    hide Ranked, OrdinalsBelow, OrdinalsDistinct;
    match c {
      case ScheduleAtCall(tick, payload) =>
        if tick >= s.clock { InsertRanks(s.items, Item(tick, s.next, payload)); }
      case ScheduleAfterCall(delay, payload) =>
        if delay >= 0 { InsertRanks(s.items, Item(s.clock + delay, s.next, payload)); }
      case _ =>
    }
  }

  /** In every reachable state the queue is ranked by (tick, ordinal), its ordinals are
      distinct, and the clock has never moved back. */
  lemma {:induction false} RunKeepsInv(s: Schedule, calls: seq<Call>)
    requires Inv(s)
    ensures Inv(Run(s, calls).0) && Run(s, calls).0.clock >= s.clock
    decreases |calls|
  {
    if |calls| > 0 {
      hide Inv, Step;
      StepKeepsInv(s, calls[0]);
      RunKeepsInv(Step(s, calls[0]).0, calls[1..]);
    }
  }

  lemma {:induction false} RunSplit(s: Schedule, calls: seq<Call>, n: nat)
    requires n <= |calls|
    ensures Run(s, calls).0 == Run(Run(s, calls[..n]).0, calls[n..]).0
    ensures Run(s, calls).1 == Run(s, calls[..n]).1 + Run(Run(s, calls[..n]).0, calls[n..]).1
    decreases |calls|
  {
    hide Step;
    if n == 0 {
      assert calls[n..] == calls;
    } else {
      RunSplit(Step(s, calls[0]).0, calls[1..], n - 1);
      assert calls[1..][..n - 1] == calls[..n][1..] && calls[1..][n - 1..] == calls[n..];
    }
  }

  /** The clock is monotone between any two moments of a run. */
  lemma ClockMonotone(s: Schedule, calls: seq<Call>, m: nat, n: nat)
    requires Inv(s) && m <= n <= |calls|
    ensures Run(s, calls[..m]).0.clock <= Run(s, calls[..n]).0.clock
  {
    RunSplit(s, calls[..n], m);
    assert calls[..n][..m] == calls[..m];
    RunKeepsInv(s, calls[..m]);
    RunKeepsInv(Run(s, calls[..m]).0, calls[..n][m..]);
  }

  // ---------- Popped items ----------

  /** Everything still to come ranks after `p`. */
  predicate Beyond(p: Item, s: Schedule) {
    p.tick <= s.clock && p.ordinal < s.next && forall i | 0 <= i < |s.items| :: KeyBefore(p, s.items[i])
  }

  lemma StepKeepsBeyond(p: Item, s: Schedule, c: Call)
    requires Beyond(p, s)
    ensures Beyond(p, Step(s, c).0)
    ensures Step(s, c).1.Popped? ==> KeyBefore(p, Step(s, c).1.item)
  {
    match c {
      case ScheduleAtCall(tick, payload) =>
        if tick >= s.clock { InsertedBeyond(p, s.items, Item(tick, s.next, payload)); }
      case ScheduleAfterCall(delay, payload) =>
        if delay >= 0 { InsertedBeyond(p, s.items, Item(s.clock + delay, s.next, payload)); }
      case _ =>
    }
  }

  lemma InsertedBeyond(p: Item, items: seq<Item>, item: Item)
    requires KeyBefore(p, item) && forall i | 0 <= i < |items| :: KeyBefore(p, items[i])
    ensures forall i | 0 <= i < |InsertOrdered(items, item, EarlierTick)| ::
              KeyBefore(p, InsertOrdered(items, item, EarlierTick)[i])
  {
    var more := InsertOrdered(items, item, EarlierTick);
    forall i | 0 <= i < |more| ensures KeyBefore(p, more[i]) {
      InsertedItem(items, item, more[i]);
    }
  }

  lemma {:induction false} LaterPopsBeyond(p: Item, s: Schedule, calls: seq<Call>, j: nat)
    requires Beyond(p, s) && j < |calls| && Run(s, calls).1[j].Popped?
    ensures KeyBefore(p, Run(s, calls).1[j].item)
    decreases |calls|
  {
    hide Beyond, Step;
    StepKeepsBeyond(p, s, calls[0]);
    if j > 0 {
      LaterPopsBeyond(p, Step(s, calls[0]).0, calls[1..], j - 1);
    }
  }

  lemma PopIsBeyond(s: Schedule, c: Call)
    requires Inv(s) && Step(s, c).1.Popped?
    ensures Beyond(Step(s, c).1.item, Step(s, c).0)
  {
  }

  /** Whatever happens between them, popped items come out in strictly increasing
      (tick, ordinal) order. */
  lemma {:induction false} PopsIncrease(s: Schedule, calls: seq<Call>, i: nat, j: nat)
    requires Inv(s) && i < j < |calls| && Run(s, calls).1[i].Popped? && Run(s, calls).1[j].Popped?
    ensures KeyBefore(Run(s, calls).1[i].item, Run(s, calls).1[j].item)
    decreases |calls|
  {
    hide Inv, Beyond, Step;
    var next := Step(s, calls[0]).0;
    if i == 0 {
      PopIsBeyond(s, calls[0]);
      LaterPopsBeyond(Run(s, calls).1[0].item, next, calls[1..], j - 1);
    } else {
      StepKeepsInv(s, calls[0]);
      PopsIncrease(next, calls[1..], i - 1, j - 1);
    }
  }

  // ---------- Refused pops ----------

  /** Some queued item lies before the clock. */
  predicate Stale(s: Schedule) {
    exists i | 0 <= i < |s.items| :: s.items[i].tick < s.clock
  }

  lemma StaleHead(s: Schedule)
    requires Inv(s)
    ensures Stale(s) <==> |s.items| > 0 && s.items[0].tick < s.clock
  {
    if i :| 0 <= i < |s.items| && s.items[i].tick < s.clock {
      assert i == 0 || KeyBefore(s.items[0], s.items[i]);
    }
  }

  /** A pop is refused exactly when some queued item is in the past, and a refused call
      of any kind changes nothing. */
  lemma PopRefusedExactly(s: Schedule, c: Call)
    requires Inv(s)
    ensures c.PopCall? ==> (Step(s, c).1.Refused? <==> Stale(s))
    ensures Step(s, c).1.Refused? ==> Step(s, c).0 == s
  {
    StaleHead(s);
  }

  lemma {:induction false} InsertBehindHead(items: seq<Item>, item: Item)
    requires |items| > 0 && items[0].tick <= item.tick
    ensures InsertOrdered(items, item, EarlierTick)[0] == items[0]
  {
    if |items| > 1 && EarlierTick(item, items[|items| - 1]) {
      InsertBehindHead(items[..|items| - 1], item);
    }
  }

  /** Once an outside advance has passed a queued item, no later pop ever succeeds. */
  lemma {:induction false} StaleForever(s: Schedule, calls: seq<Call>)
    requires Inv(s) && Stale(s)
    ensures Stale(Run(s, calls).0)
    ensures forall i | 0 <= i < |calls| :: calls[i].PopCall? ==> Run(s, calls).1[i] == Refused(StaleItem)
    decreases |calls|
  {
    if |calls| > 0 {
      StepKeepsInv(s, calls[0]);
      StaleStep(s, calls[0]);
      hide Inv, Stale, Step;
      StaleForever(Step(s, calls[0]).0, calls[1..]);
      forall i | 0 <= i < |calls| && calls[i].PopCall? ensures Run(s, calls).1[i] == Refused(StaleItem) {
        if i > 0 { assert calls[1..][i - 1].PopCall?; }
      }
    }
  }

  lemma StaleStep(s: Schedule, c: Call)
    requires Inv(s) && Stale(s)
    ensures Stale(Step(s, c).0) && (c.PopCall? ==> Step(s, c).1 == Refused(StaleItem))
  {
    StaleHead(s);
    var next := Step(s, c).0;
    if next.items != s.items {
      InsertBehindHead(s.items, Step(s, c).1.item);
      InsertOrderedMembers(s.items, Step(s, c).1.item, EarlierTick);
    }
    assert next.items[0] == s.items[0];
  }

  // ---------- Conservation and stable order ----------

  function ScheduledOf(outcomes: seq<Outcome>): seq<Item> {
    if |outcomes| == 0 then []
    else (if outcomes[0].Scheduled? then [outcomes[0].item] else []) + ScheduledOf(outcomes[1..])
  }

  function PoppedOf(outcomes: seq<Outcome>): seq<Item> {
    if |outcomes| == 0 then []
    else (if outcomes[0].Popped? then [outcomes[0].item] else []) + PoppedOf(outcomes[1..])
  }

  function Came(outcome: Outcome): multiset<Item> {
    if outcome.Scheduled? then multiset{outcome.item} else multiset{}
  }

  function Left(outcome: Outcome): multiset<Item> {
    if outcome.Popped? then multiset{outcome.item} else multiset{}
  }

  /** What came in and what was queued is what went out and what is queued. */
  predicate Balanced(s: Schedule, next: Schedule, outcome: Outcome) {
    multiset(s.items) + Came(outcome) == multiset(next.items) + Left(outcome)
  }

  lemma ScheduleConserves(s: Schedule, tick: int, payload: Payload)
    ensures Balanced(s, ScheduleAt(s, tick, payload).0, ScheduleAt(s, tick, payload).1)
  {
    hide InsertOrdered;
    if tick >= s.clock { InsertOrderedMembers(s.items, Item(tick, s.next, payload), EarlierTick); }
  }

  lemma PopConserves(s: Schedule)
    ensures Balanced(s, PopNext(s).0, PopNext(s).1)
  {
    if |s.items| > 0 { assert s.items == [s.items[0]] + s.items[1..]; }
  }

  lemma NothingMoved(s: Schedule, next: Schedule, outcome: Outcome)
    requires next.items == s.items && !outcome.Scheduled? && !outcome.Popped?
    ensures Balanced(s, next, outcome)
  {
  }

  lemma StepConserves(s: Schedule, c: Call)
    ensures Balanced(s, Step(s, c).0, Step(s, c).1)
  {
    hide ScheduleAt, PopNext, Balanced;
    match c {
      case ScheduleAtCall(tick, payload) => ScheduleConserves(s, tick, payload);
      case ScheduleAfterCall(delay, payload) =>
        ScheduleConserves(s, s.clock + delay, payload);
        NothingMoved(s, s, Refused(NegativeNumber));
      case PopCall => PopConserves(s);
      case _ => NothingMoved(s, Step(s, c).0, Step(s, c).1);
    }
  }

  lemma FirstOutcome(outcomes: seq<Outcome>)
    requires |outcomes| > 0
    ensures multiset(ScheduledOf(outcomes))
         == Came(outcomes[0]) + multiset(ScheduledOf(outcomes[1..]))
    ensures multiset(PoppedOf(outcomes))
         == Left(outcomes[0]) + multiset(PoppedOf(outcomes[1..]))
  {
  }

  lemma Telescope(
    a: multiset<Item>, b: multiset<Item>, c: multiset<Item>,
    came: multiset<Item>, left: multiset<Item>, come: multiset<Item>, leave: multiset<Item>)
    requires a + came == b + left && b + come == c + leave
    ensures a + (came + come) == c + (left + leave)
  {
    assert a + (came + come) == (a + came) + come == (b + left) + come == (b + come) + left == c + (left + leave);
  }

  /** Every item scheduled is popped or still queued, once. */
  lemma {:induction false} RunConserves(s: Schedule, calls: seq<Call>)
    ensures var (final, outcomes) := Run(s, calls);
            multiset(s.items) + multiset(ScheduledOf(outcomes)) == multiset(final.items) + multiset(PoppedOf(outcomes))
    decreases |calls|
  {
    if |calls| > 0 {
      hide Step;
      var (next, outcome) := Step(s, calls[0]);
      StepConserves(s, calls[0]);
      RunConserves(next, calls[1..]);
      var (final, outcomes) := Run(s, calls);
      var later := Run(next, calls[1..]).1;
      assert outcomes[1..] == later && outcomes[0] == outcome;
      hide Run, ScheduledOf, PoppedOf;
      FirstOutcome(outcomes);
      Telescope(multiset(s.items), multiset(next.items), multiset(final.items), Came(outcome), Left(outcome),
                multiset(ScheduledOf(later)), multiset(PoppedOf(later)));
    }
  }

  predicate OrdinalsIncrease(items: seq<Item>) {
    forall i, j | 0 <= i < j < |items| :: items[i].ordinal < items[j].ordinal
  }

  /** A ranked queue is its arrivals, in order of scheduling, stably sorted by tick. */
  lemma {:induction false} RankedIsStableSort(arrivals: seq<Item>, items: seq<Item>)
    requires OrdinalsIncrease(arrivals) && Ranked(items) && multiset(arrivals) == multiset(items)
    ensures items == OrderBy(arrivals, EarlierTick)
  {
    StableSortRanks(arrivals);
    OrderByMembers(arrivals, EarlierTick);
    RankedUnique(items, OrderBy(arrivals, EarlierTick));
  }

  lemma {:induction false} StableSortRanks(arrivals: seq<Item>)
    requires OrdinalsIncrease(arrivals)
    ensures Ranked(OrderBy(arrivals, EarlierTick)) && OrdinalsDistinct(OrderBy(arrivals, EarlierTick))
    ensures |arrivals| > 0 ==> OrdinalsBelow(OrderBy(arrivals, EarlierTick), arrivals[|arrivals| - 1].ordinal + 1)
  {
    if |arrivals| > 0 {
      var init, last := arrivals[..|arrivals| - 1], arrivals[|arrivals| - 1];
      StableSortRanks(init);
      OrderByMembers(init, EarlierTick);
      var sorted := OrderBy(init, EarlierTick);
      forall i | 0 <= i < |sorted| ensures sorted[i].ordinal < last.ordinal {
        var x := sorted[i];
        assert x in multiset(sorted) && x in init;
        var k :| 0 <= k < |init| && init[k] == x;
        assert arrivals[k] == sorted[i];
      }
      InsertRanks(sorted, last);
    }
  }

  /** A collection of items has only one ranking. */
  lemma {:induction false} RankedUnique(xs: seq<Item>, ys: seq<Item>)
    requires Ranked(xs) && Ranked(ys) && multiset(xs) == multiset(ys)
    ensures xs == ys
  {
    assert |xs| == |multiset(xs)| == |multiset(ys)| == |ys|;
    if |xs| > 0 {
      hide Ranked;
      HeadsAgree(xs, ys);
      RankedTail(xs);
      RankedTail(ys);
      RankedUnique(xs[1..], ys[1..]);
    }
  }

  lemma RankedTail(xs: seq<Item>)
    requires |xs| > 0 && Ranked(xs)
    ensures Ranked(xs[1..]) && xs == [xs[0]] + xs[1..] && multiset(xs[1..]) == multiset(xs) - multiset{xs[0]}
  {
    assert xs == [xs[0]] + xs[1..];
  }

  lemma HeadsAgree(xs: seq<Item>, ys: seq<Item>)
    requires Ranked(xs) && Ranked(ys) && multiset(xs) == multiset(ys) && |xs| > 0 && |ys| > 0
    ensures xs[0] == ys[0]
  {
    assert xs[0] in multiset(ys) && ys[0] in multiset(xs);
    RankedFirst(xs, ys[0]);
    RankedFirst(ys, xs[0]);
  }

  lemma RankedFirst(xs: seq<Item>, x: Item)
    requires Ranked(xs) && x in xs
    ensures x == xs[0] || KeyBefore(xs[0], x)
  {
    var i :| 0 <= i < |xs| && xs[i] == x;
  }

  /** The items scheduled and not yet popped, in order of scheduling. */
  ghost function Pending(scheduled: seq<Item>, popped: seq<Item>): seq<Item> {
    if |scheduled| == 0 then []
    else (if scheduled[0] in popped then [] else [scheduled[0]]) + Pending(scheduled[1..], popped)
  }

  lemma {:induction false} ScheduledInOrder(s: Schedule, calls: seq<Call>)
    ensures OrdinalsIncrease(ScheduledOf(Run(s, calls).1))
    ensures forall x | x in ScheduledOf(Run(s, calls).1) :: x.ordinal >= s.next
    decreases |calls|
  {
    if |calls| > 0 {
      hide InsertOrdered;
      var (next, outcome) := Step(s, calls[0]);
      ScheduledInOrder(next, calls[1..]);
      assert Run(s, calls).1[1..] == Run(next, calls[1..]).1;
      assert outcome.Scheduled? ==> outcome.item.ordinal == s.next && next.next == s.next + 1;
      assert next.next >= s.next;
      var rest := ScheduledOf(Run(next, calls[1..]).1);
      forall i | 0 <= i < |rest| ensures rest[i].ordinal >= next.next { assert rest[i] in rest; }
    }
  }

  lemma {:induction false} PendingItem(scheduled: seq<Item>, popped: seq<Item>, x: Item)
    ensures x in Pending(scheduled, popped) <==> x in scheduled && x !in popped
  {
    if |scheduled| > 0 {
      PendingItem(scheduled[1..], popped, x);
      assert x in scheduled <==> x == scheduled[0] || x in scheduled[1..];
    }
  }

  lemma {:induction false} PendingInOrder(scheduled: seq<Item>, popped: seq<Item>)
    requires OrdinalsIncrease(scheduled)
    ensures OrdinalsIncrease(Pending(scheduled, popped))
  {
    if |scheduled| > 0 {
      var rest := Pending(scheduled[1..], popped);
      PendingInOrder(scheduled[1..], popped);
      forall i | 0 <= i < |rest| ensures scheduled[0].ordinal < rest[i].ordinal {
        var x := rest[i];
        PendingItem(scheduled[1..], popped, x);
        var k :| 0 <= k < |scheduled[1..]| && scheduled[1..][k] == x;
      }
    }
  }

  lemma {:induction false} OncePerItem(items: seq<Item>, x: Item)
    requires OrdinalsDistinct(items)
    ensures multiset(items)[x] == if x in items then 1 else 0
  {
    if |items| > 0 {
      OncePerItem(items[1..], x);
      assert items == [items[0]] + items[1..];
    }
  }

  /** Of distinct scheduled items, the pending ones are the queued ones. */
  lemma PendingCounts(scheduled: seq<Item>, popped: seq<Item>, queued: seq<Item>)
    requires OrdinalsIncrease(scheduled) && OrdinalsDistinct(queued)
    requires multiset(scheduled) == multiset(queued) + multiset(popped)
    ensures multiset(Pending(scheduled, popped)) == multiset(queued)
  {
    var pending := Pending(scheduled, popped);
    PendingInOrder(scheduled, popped);
    forall x: Item ensures multiset(pending)[x] == multiset(queued)[x] {
      OncePerItem(scheduled, x);
      OncePerItem(pending, x);
      OncePerItem(queued, x);
      PendingItem(scheduled, popped, x);
      assert multiset(scheduled)[x] == multiset(queued)[x] + multiset(popped)[x];
      assert x in popped <==> multiset(popped)[x] > 0;
    }
  }

  /** In every state a new scheduler can reach, its queue is exactly the items scheduled
      and not yet popped, sorted by tick with ties in order of scheduling. */
  lemma QueueIsStableSort(clock: nat, calls: seq<Call>)
    ensures var (final, outcomes) := Run(Begin(clock), calls);
            final.items == OrderBy(Pending(ScheduledOf(outcomes), PoppedOf(outcomes)), EarlierTick)
  {
    hide Run, Step, ScheduledOf, PoppedOf, Pending, OrderBy;
    var s := Begin(clock);
    var (final, outcomes) := Run(s, calls);
    RunKeepsInv(s, calls);
    RunConserves(s, calls);
    ScheduledInOrder(s, calls);
    assert multiset(s.items) + multiset(ScheduledOf(outcomes)) == multiset(ScheduledOf(outcomes));
    PendingInOrder(ScheduledOf(outcomes), PoppedOf(outcomes));
    PendingCounts(ScheduledOf(outcomes), PoppedOf(outcomes), final.items);
    RankedIsStableSort(Pending(ScheduledOf(outcomes), PoppedOf(outcomes)), final.items);
  }

  // ---------- Draining ----------

  /** Pop until the queue is empty or a pop is refused. */
  function Drain(s: Schedule): (Schedule, seq<Item>)
    decreases |s.items|
  {
    var (next, outcome) := PopNext(s);
    if outcome.Popped? then
      var (final, popped) := Drain(next);
      (final, [outcome.item] + popped)
    else (s, [])
  }

  function LastTick(items: seq<Item>): nat
    requires |items| > 0
  {
    items[|items| - 1].tick
  }

  /** Draining returns the whole queue in order, and leaves the clock at the later of its
      start and the last tick, exactly when nothing queued is stale; otherwise it returns
      nothing and changes nothing. */
  lemma {:induction false} DrainExact(s: Schedule)
    requires Inv(s)
    ensures !Stale(s) ==>
              && Drain(s).1 == s.items && Drain(s).0.items == []
              && Drain(s).0.clock == if |s.items| > 0 && LastTick(s.items) > s.clock then LastTick(s.items) else s.clock
    ensures Stale(s) ==> Drain(s) == (s, [])
    decreases |s.items|
  {
    hide Inv, Stale;
    StaleHead(s);
    if |s.items| > 0 && s.items[0].tick >= s.clock {
      var next := PopNext(s).0;
      StepKeepsInv(s, PopCall);
      StaleHead(next);
      HeadEarliest(s);
      DrainExact(next);
      assert s.items == [s.items[0]] + s.items[1..];
    }
  }

  lemma HeadEarliest(s: Schedule)
    requires Inv(s)
    ensures forall i | 0 <= i < |s.items| :: s.items[0].tick <= s.items[i].tick
  {
    forall i | 0 < i < |s.items| ensures s.items[0].tick <= s.items[i].tick {
      assert KeyBefore(s.items[0], s.items[i]);
    }
  }
}
