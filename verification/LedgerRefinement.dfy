/** The stored ledger refines the live one: tables that represent a live ledger answer
    every call with the live ledger's outcome and represent its next state. */
module LedgerRefinement {
  import opened Wrappers
  import opened CanonicalJson
  import opened StateMachine
  import opened Histories
  import opened Contracts
  import opened Sql
  import opened LedgerTables
  import opened LedgerCalls
  import opened LedgerChecker
  import opened LedgerProtocol
  import opened LiveLedger
  import opened LiveInvariant

  // ---------- Representation ----------

  function RowsOfEvents(events: seq<Event>): seq<EventRow> {
    seq(|events|, i requires 0 <= i < |events| => RowOfEvent(events[i]))
  }

  function RowOfEntry(a: string, ordinal: int, e: Entry): TransitionRow {
    RowOfStep(a, ordinal, e.eventSeq, e.candidate, e.record, e.evidence)
  }

  function RowsOfLog(a: string, log: seq<Entry>): seq<TransitionRow> {
    seq(|log|, i requires 0 <= i < |log| => RowOfEntry(a, i + 1, log[i]))
  }

  function AttemptRowsOfLog(a: string, log: seq<Entry>): seq<AttemptRow> {
    if |log| == 0 then []
    else
      var last := log[|log| - 1];
      var before := AttemptRowsOfLog(a, log[..|log| - 1]);
      if last.record.resulting == InFlight && last.record.attemptId.Some?
      then before + [AttemptRow(last.record.attemptId.value, a, |before| + 1, last.eventSeq - 1, last.eventSeq)]
      else before
  }

  function RowOfOp(op: LiveOp): OperationRow {
    OperationRow(op.machine.identity, op.machine.state, op.createdSeq, UpdatedSeq(op))
  }

  predicate RepEvents(t: Tables, events: seq<Event>) {
    t.events == RowsOfEvents(events)
  }

  predicate RepOperations(t: Tables, order: seq<string>, ops: map<string, LiveOp>) {
    |t.operations| == |order| && forall i | 0 <= i < |order| ::
      order[i] in ops && t.operations[i] == RowOfOp(ops[order[i]])
  }

  function LogOf(ops: map<string, LiveOp>, a: string): seq<Entry> {
    if a in ops then ops[a].log else []
  }

  ghost predicate RepTransitions(t: Tables, ops: map<string, LiveOp>) {
    forall a :: TransitionsWhere(t.transitions, a) == RowsOfLog(a, LogOf(ops, a))
  }

  ghost predicate RepAttempts(t: Tables, ops: map<string, LiveOp>) {
    forall a :: AttemptsWhere(t.attempts, a) == AttemptRowsOfLog(a, LogOf(ops, a))
  }

  ghost predicate Rep(t: Tables, v: Live) {
    && MetadataAccepted(t, v.runId)
    && RepEvents(t, v.events)
    && RepOperations(t, v.order, v.ops)
    && RepTransitions(t, v.ops)
    && RepAttempts(t, v.ops)
  }

  ghost predicate Represents(l: Ledger, v: Live) {
    l.closed == v.closed && (!l.closed ==> l.runId == v.runId) && Rep(l.tables, v)
  }

  // ---------- Events ----------

  /** Each row stands at its sequence number, with its event's tick. */
  predicate RowsPlaced(t: Tables, events: seq<Event>) {
    && |t.events| == |events|
    && forall i | 0 <= i < |events| :: t.events[i].seqNo == i + 1 && t.events[i].tick == events[i].tick
  }

  lemma RowsArePlaced(t: Tables, events: seq<Event>)
    requires RepEvents(t, events) && LogInv(events)
    ensures RowsPlaced(t, events)
  {
    hide ValidEvent, RowOfEvent;
    forall i | 0 <= i < |events| ensures t.events[i].seqNo == i + 1 && t.events[i].tick == events[i].tick {
      RowKeepsOrder(events[i]);
    }
  }

  lemma PlacedRowsRead(t: Tables, events: seq<Event>)
    requires RowsPlaced(t, events)
    ensures OrderedEvents(t) == t.events
    ensures NextSeq(t) == |events| + 1
    ensures LatestEvent(t).Some? <==> |events| > 0
    ensures |events| > 0 ==> LatestEvent(t).value.tick == events[|events| - 1].tick
  {
    OrderByKeeps(t.events, EventBefore);
  }

  lemma PlacedRowsHeld(t: Tables, events: seq<Event>)
    requires RowsPlaced(t, events)
    ensures forall n: int :: HasEvent(t, n) <==> 1 <= n <= |events|
  {
    forall n: int | 1 <= n <= |events| ensures HasEvent(t, n) {
      assert t.events[n - 1].seqNo == n;
    }
  }

  lemma EventsRead(t: Tables, events: seq<Event>)
    requires RepEvents(t, events) && LogInv(events)
    ensures OrderedEvents(t) == t.events
    ensures NextSeq(t) == |events| + 1
    ensures LatestEvent(t).Some? <==> |events| > 0
    ensures |events| > 0 ==> LatestEvent(t).value.tick == events[|events| - 1].tick
    ensures forall n: int :: HasEvent(t, n) <==> 1 <= n <= |events|
    ensures EventsOf(t) == Ok(events)
  {
    RowsArePlaced(t, events);
    hide ValidEvent, RowsOfEvents, EventsOf, OrderedEvents, NextSeq, LatestEvent, HasEvent, RowsPlaced, EventsOfRows;
    PlacedRowsRead(t, events);
    PlacedRowsHeld(t, events);
    DecodedRows(events);
    DecodedTable(t, events);
  }

  lemma NextSeqRead(t: Tables, events: seq<Event>)
    requires RepEvents(t, events) && LogInv(events)
    ensures NextSeq(t) == |events| + 1
  {
    hide RepEvents, LogInv, NextSeq, LatestEvent, EventsOf, HasEvent;
    EventsRead(t, events);
  }

  lemma HasEventRead(t: Tables, events: seq<Event>, n: int)
    requires RepEvents(t, events) && LogInv(events)
    ensures HasEvent(t, n) <==> 1 <= n <= |events|
  {
    hide RepEvents, LogInv, NextSeq, LatestEvent, EventsOf, HasEvent;
    EventsRead(t, events);
  }

  lemma RowKeepsOrder(e: Event)
    ensures RowOfEvent(e).seqNo == e.seqNo && RowOfEvent(e).tick == e.tick
  {
    hide Print;
  }

  lemma {:induction false} DecodedRows(events: seq<Event>)
    requires forall i | 0 <= i < |events| :: ValidEvent(events[i])
    ensures EventsOfRows(RowsOfEvents(events)) == Ok(events)
  {
    hide ValidEvent, RowOfEvent, EventFromRow;
    if |events| > 0 {
      var n := |events| - 1;
      DecodedRows(events[..n]);
      assert RowsOfEvents(events)[..n] == RowsOfEvents(events[..n]);
      EventRowExact(RowOfEvent(events[n]), events[n]);
      assert events == events[..n] + [events[n]];
    }
  }

  lemma DecodedTable(t: Tables, events: seq<Event>)
    requires OrderedEvents(t) == t.events == RowsOfEvents(events)
    requires EventsOfRows(RowsOfEvents(events)) == Ok(events)
    ensures EventsOf(t) == Ok(events)
  {
  }

  /** Appending the next event either fails because its tick would move back, or
      succeeds and extends the represented log. */
  lemma InsertedEvent(t: Tables, events: seq<Event>, e: Event)
    requires RepEvents(t, events) && LogInv(events) && ValidEvent(e)
    ensures e.seqNo != |events| + 1 || e.tick < LastTick(events) ==> InsertEvent(t, e) == Err(EventSequence)
    ensures e.seqNo == |events| + 1 && e.tick >= LastTick(events) ==>
              InsertEvent(t, e) == Ok(t.(events := t.events + [RowOfEvent(e)]))
              && RepEvents(t.(events := t.events + [RowOfEvent(e)]), events + [e])
  {
    hide RowOfEvent, EventsOf, LogInv, HasEvent, LatestEvent, NextSeq, ValidEvidenceMap;
    EventsRead(t, events);
    assert RowsOfEvents(events + [e]) == RowsOfEvents(events) + [RowOfEvent(e)];
  }

  lemma InsertedLifecycle(
    t: Tables, events: seq<Event>, tick: nat, kind: EventKind, id: Identity, attemptId: Option<string>,
    facts: map<string, Json>)
    requires RepEvents(t, events) && LogInv(events) && ValidEvidenceMap(facts)
    ensures var r := InsertLifecycleEvent(t, tick, kind, id, attemptId, facts);
            var more := events + [Lifecycle(events, tick, kind, id, attemptId, facts)];
            if tick < LastTick(events) then r == Err(EventSequence)
            else r.Ok? && RepEvents(r.value, more) && LogInv(more) && r.value == t.(events := r.value.events)
  {
    hide RowOfEvent, LogInv, NextSeq, ValidEvidenceMap, InsertEvent, RepEvents;
    NextSeqRead(t, events);
    var e := Lifecycle(events, tick, kind, id, attemptId, facts);
    InsertedEvent(t, events, e);
    if tick >= LastTick(events) {
      LifecycleGrows(events, tick, kind, id, attemptId, facts);
    }
  }

  // ---------- Operations ----------

  lemma {:induction false} FindInOrder(rows: seq<OperationRow>, i: nat)
    requires i < |rows| && forall j | 0 <= j < i :: rows[j].identity.actionId != rows[i].identity.actionId
    ensures FindOperation(rows, rows[i].identity.actionId) == Some(rows[i])
  {
    if i > 0 {
      FindInOrder(rows[1..], i - 1);
    }
  }

  predicate ActionsNamed(ops: map<string, LiveOp>) {
    forall a | a in ops :: ops[a].machine.identity.actionId == a
  }

  lemma InvNamesActions(v: Live)
    requires Inv(v)
    ensures ActionsNamed(v.ops)
    ensures OrderInv(v) && LogInv(v.events)
  {
    hide LogInv, Legal, After, Linked;
  }

  lemma OperationRead(t: Tables, v: Live, a: string)
    requires RepOperations(t, v.order, v.ops) && OrderInv(v) && ActionsNamed(v.ops)
    ensures HasOperation(t, a) <==> a in v.ops
    ensures FindOperation(t.operations, a) == if a in v.ops then Some(RowOfOp(v.ops[a])) else None
  {
    assert forall i | 0 <= i < |v.order| :: t.operations[i].identity.actionId == v.order[i];
    if a in v.ops {
      var i :| 0 <= i < |v.order| && v.order[i] == a;
      assert t.operations[i].identity.actionId == a;
      FindInOrder(t.operations, i);
    } else {
      FindOperationSound(t.operations, a);
    }
  }

  lemma OperationsOrdered(t: Tables, v: Live)
    requires RepOperations(t, v.order, v.ops) && OrderInv(v)
    ensures OrderedOperations(t) == t.operations
  {
    OrderByKeeps(t.operations, OperationBefore);
  }

  // ---------- Transition rows ----------

  lemma TransitionsRead(t: Tables, ops: map<string, LiveOp>, a: string)
    requires RepTransitions(t, ops)
    ensures TransitionsOf(t, a) == RowsOfLog(a, LogOf(ops, a))
  {
    OrderByKeeps(TransitionsWhere(t.transitions, a), TransitionBefore);
  }

  lemma {:induction false} LogReadsBack(id: Identity, a: string, log: seq<Entry>)
    requires Legal(id, log)
    ensures OrdinalsCount(RowsOfLog(a, log))
    ensures EntriesOfRows(RowsOfLog(a, log)) == log
    ensures PersistedOfRows(RowsOfLog(a, log)) == PersistedOfLog(log)
  {
    hide Legal, Link;
    forall i | 0 <= i < |log|
      ensures EntryOfRow(RowOfEntry(a, i + 1, log[i])) == log[i]
      ensures PersistedOfRow(RowOfEntry(a, i + 1, log[i])) == PersistedOf(log[i])
    {
      assert log[i].record.cause == log[i].evidence.cause && log[i].record.evidenceId == log[i].evidence.evidenceId by {
        Shape(id, log, i);
        LinkedCause(StateBefore(log, i), log[i]);
      }
    }
  }

  lemma LinkedCause(source: State, e: Entry)
    requires Link(source, e)
    ensures e.record.cause == e.evidence.cause && e.record.evidenceId == e.evidence.evidenceId
  {
  }

  // ---------- Attempt rows ----------

  lemma {:induction false} AttemptRowsCount(a: string, log: seq<Entry>)
    ensures OrdinalsContiguous(AttemptRowsOfLog(a, log))
    ensures AttemptIds(AttemptRowsOfLog(a, log)) == Attempts(log)
    ensures forall r | r in AttemptRowsOfLog(a, log) :: r.actionId == a
  {
    if |log| > 0 {
      AttemptRowsCount(a, log[..|log| - 1]);
      var rows, before := AttemptRowsOfLog(a, log), AttemptRowsOfLog(a, log[..|log| - 1]);
      assert rows[..|before|] == before;
      assert AttemptIds(rows)[..|before|] == AttemptIds(before);
    }
  }

  lemma AttemptRowsShape(id: Identity, a: string, log: seq<Entry>)
    requires Legal(id, log)
    ensures OrdinalsContiguous(AttemptRowsOfLog(a, log))
    ensures AttemptIds(AttemptRowsOfLog(a, log)) == Attempts(log)
    ensures var rows := AttemptRowsOfLog(a, log); forall i | 0 <= i < |rows| :: ValidAttemptId(rows[i].attemptId)
  {
    hide Legal, ValidAttemptId;
    AttemptRowsCount(a, log);
    AttemptsValid(id, log);
    var rows := AttemptRowsOfLog(a, log);
    forall i | 0 <= i < |rows| ensures ValidAttemptId(rows[i].attemptId) {
      assert AttemptIds(rows)[i] in Attempts(log);
    }
  }

  lemma AttemptsRead(t: Tables, ops: map<string, LiveOp>, a: string)
    requires RepAttempts(t, ops)
    requires OrdinalsContiguous(AttemptRowsOfLog(a, LogOf(ops, a)))
    ensures AttemptsOf(t, a) == AttemptRowsOfLog(a, LogOf(ops, a))
  {
    OrderByKeeps(AttemptsWhere(t.attempts, a), AttemptBefore);
  }

  // ---------- Machines and snapshots ----------

  /** Replaying the rows of an operation gives back its live machine and history. */
  lemma MachineRead(t: Tables, v: Live, a: string)
    requires Rep(t, v) && Inv(v)
    ensures LoadMachine(t, a) ==
              if a in v.ops then Ok((v.ops[a].machine, PersistedOfLog(v.ops[a].log))) else Err(OperationNotFound)
    ensures SnapshotOf(t, a) == if a in v.ops then Ok(SnapshotOfLive(v.ops[a])) else Err(OperationNotFound)
    ensures a in v.ops ==> AttemptsOf(t, a) == AttemptRowsOfLog(a, v.ops[a].log)
    ensures a in v.ops ==> TransitionsOf(t, a) == RowsOfLog(a, v.ops[a].log)
  {
    hide ValidAttemptId, LogInv, Linked, Legal, After, Replay, OrdinalsCount, MetadataAccepted, RepEvents, Managed,
         Owned, AttemptsInv;
    InvNamesActions(v);
    OperationRead(t, v, a);
    if a in v.ops {
      hide Inv, OrderInv, ActionsNamed, HasOperation;
      var op := v.ops[a];
      var id := op.machine.identity;
      assert Legal(id, op.log) && op.machine == After(id, op.log) by { HistoryOfOp(v, a); }
      TransitionsRead(t, v.ops, a);
      LogReadsBack(id, a, op.log);
      ReplayExact(id, RowsOfLog(a, op.log));
      AttemptRowsShape(id, a, op.log);
      AttemptsRead(t, v.ops, a);
      MachineOfLegal(id, op.log);
    }
  }

  lemma HistoryOfOp(v: Live, a: string)
    requires Inv(v) && a in v.ops
    ensures var id := v.ops[a].machine.identity;
            Legal(id, v.ops[a].log) && v.ops[a].machine == After(id, v.ops[a].log)
  {
    hide LogInv, Legal, After, Linked, OrderInv;
  }

  lemma {:induction false} SnapshotsCollected(t: Tables, v: Live, n: nat)
    requires n <= |v.order| == |t.operations| && forall i | 0 <= i < |v.order| :: v.order[i] in v.ops
    requires forall i | 0 <= i < n ::
              SnapshotOf(t, t.operations[i].identity.actionId) == Ok(SnapshotOfLive(v.ops[v.order[i]]))
    ensures SnapshotsOfRows(t, t.operations[..n]) == Ok(LiveSnapshots(v.order[..n], v.ops))
  {
    hide SnapshotOf, SnapshotOfLive;
    if n > 0 {
      SnapshotsCollected(t, v, n - 1);
      assert t.operations[..n][..n - 1] == t.operations[..n - 1];
      assert v.order[..n][..n - 1] == v.order[..n - 1];
      assert LiveSnapshots(v.order[..n], v.ops)
          == LiveSnapshots(v.order[..n - 1], v.ops) + [SnapshotOfLive(v.ops[v.order[n - 1]])];
    }
  }

  lemma SnapshotAt(t: Tables, v: Live, i: nat)
    requires Rep(t, v) && Inv(v) && i < |v.order| && v.order[i] in v.ops
    ensures |t.operations| == |v.order|
    ensures SnapshotOf(t, t.operations[i].identity.actionId) == Ok(SnapshotOfLive(v.ops[v.order[i]]))
  {
    hide Inv, SnapshotOf, SnapshotOfLive, LoadMachine, RepTransitions, RepAttempts, RepEvents, MetadataAccepted;
    InvNamesActions(v);
    hide OrderInv, LogInv;
    MachineRead(t, v, v.order[i]);
  }

  lemma OperationsRep(t: Tables, v: Live)
    requires Rep(t, v)
    ensures RepOperations(t, v.order, v.ops)
    ensures |t.operations| == |v.order| && forall i | 0 <= i < |v.order| :: v.order[i] in v.ops
  {
    hide RepTransitions, RepAttempts, RepEvents, MetadataAccepted;
  }

  lemma SnapshotsRead(t: Tables, v: Live)
    requires Rep(t, v) && Inv(v)
    ensures OrderInv(v)
    ensures Snapshots(t) == Ok(LiveSnapshots(v.order, v.ops))
  {
    hide Inv, Rep, OrderInv, SnapshotOf, SnapshotOfLive, LogInv, OrderedOperations, RepOperations, ActionsNamed;
    InvNamesActions(v);
    OperationsRep(t, v);
    OperationsOrdered(t, v);
    forall i | 0 <= i < |v.order|
      ensures SnapshotOf(t, t.operations[i].identity.actionId) == Ok(SnapshotOfLive(v.ops[v.order[i]]))
    {
      SnapshotAt(t, v, i);
    }
    SnapshotsCollected(t, v, |v.order|);
    assert t.operations[..|v.order|] == t.operations && v.order[..|v.order|] == v.order;
  }
}
