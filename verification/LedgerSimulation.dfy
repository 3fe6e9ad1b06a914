/** Each write call on representing tables does what the live ledger does. */
module LedgerSimulation {
  import opened Wrappers
  import opened StateMachine
  import opened Histories
  import opened Contracts
  import opened LedgerTables
  import opened LedgerCalls
  import opened LedgerChecker
  import opened LedgerProtocol
  import opened LiveLedger
  import opened LiveInvariant
  import opened LedgerRefinement

  // ---------- Rows already stored ----------

  lemma EntryInLog(v: Live, a: string, j: nat)
    requires Inv(v) && a in v.ops && j < |v.ops[a].log|
    ensures 1 <= v.ops[a].log[j].eventSeq <= |v.events|
    ensures Linked(v.events, v.ops[a].machine.identity, v.ops[a].log[j])
  {
    hide LogInv, Legal, After, TransitionFacts, OrderInv, AttemptsInv, Managed, Owned;
    assert OpInv(v.events, a, v.ops[a]);
  }

  /** Every stored transition row stands for an entry of a live history. */
  lemma StoredTransition(t: Tables, v: Live, r: TransitionRow)
    requires RepTransitions(t, v.ops) && Inv(v) && r in t.transitions
    ensures r.actionId in v.ops && 1 <= r.ordinal <= |v.ops[r.actionId].log|
    ensures r == RowOfEntry(r.actionId, r.ordinal, v.ops[r.actionId].log[r.ordinal - 1])
    ensures r.eventSeq == v.ops[r.actionId].log[r.ordinal - 1].eventSeq && 1 <= r.eventSeq <= |v.events|
  {
    hide Inv;
    var a := r.actionId;
    TransitionsWhereMembers(t.transitions, a);
    var rows := RowsOfLog(a, LogOf(v.ops, a));
    assert r in rows;
    var j :| 0 <= j < |rows| && rows[j] == r;
    EntryInLog(v, a, j);
  }

  /** Attempt rows stand for the entries into IN_FLIGHT, with the dispatch event right
      before the transition event. */
  lemma {:induction false} AttemptRowEntry(a: string, log: seq<Entry>, r: AttemptRow)
    requires r in AttemptRowsOfLog(a, log)
    ensures exists j ::
              0 <= j < |log| && log[j].record.resulting == InFlight && log[j].record.attemptId == Some(r.attemptId)
                        && r.transitionSeq == log[j].eventSeq
    ensures r.actionId == a && r.dispatchSeq == r.transitionSeq - 1
    ensures 1 <= r.ordinal <= |AttemptRowsOfLog(a, log)|
  {
    var n := |log| - 1;
    if r in AttemptRowsOfLog(a, log[..n]) {
      AttemptRowEntry(a, log[..n], r);
      var j :| 0 <= j < n && log[..n][j].record.resulting == InFlight
               && log[..n][j].record.attemptId == Some(r.attemptId) && r.transitionSeq == log[..n][j].eventSeq;
      assert log[j] == log[..n][j];
    }
  }

  /** The stored attempt rows of one action. */
  lemma AttemptsStored(t: Tables, ops: map<string, LiveOp>, a: string)
    requires RepAttempts(t, ops)
    ensures forall r :: r in AttemptRowsOfLog(a, LogOf(ops, a)) <==> r in t.attempts && r.actionId == a
  {
    hide AttemptRowsOfLog;
    AttemptsWhereMembers(t.attempts, a);
  }

  lemma IdsIssued(v: Live, a: string)
    requires Inv(v) && a in v.ops
    ensures forall x | x in v.ops[a].machine.attemptIds :: x in v.attempts
  {
    hide LogInv, OpInv, OrderInv;
  }

  lemma RowOfId(rows: seq<AttemptRow>, r: AttemptRow)
    requires r in rows
    ensures r.attemptId in AttemptIds(rows) && |AttemptIds(rows)| == |rows|
  {
    var i :| 0 <= i < |rows| && rows[i] == r;
    assert AttemptIds(rows)[i] == r.attemptId;
  }

  lemma IdOfRow(rows: seq<AttemptRow>, x: string) returns (r: AttemptRow)
    requires x in AttemptIds(rows)
    ensures r in rows && r.attemptId == x
  {
    var i :| 0 <= i < |AttemptIds(rows)| && AttemptIds(rows)[i] == x;
    r := rows[i];
  }

  lemma StoredAttempt(t: Tables, v: Live, r: AttemptRow)
    requires RepAttempts(t, v.ops) && Inv(v) && r in t.attempts
    ensures r.actionId in v.ops && r in AttemptRowsOfLog(r.actionId, v.ops[r.actionId].log)
    ensures r.attemptId in v.attempts
    ensures r.ordinal <= |v.ops[r.actionId].machine.attemptIds|
    ensures 1 <= r.dispatchSeq == r.transitionSeq - 1 && r.transitionSeq <= |v.events|
  {
    hide Inv, RepAttempts, AttemptIds, Linked;
    var a := r.actionId;
    AttemptsStored(t, v.ops, a);
    assert a in v.ops by { NoRowsWithoutLog(a); }
    hide AttemptRowsOfLog;
    AttemptIdsOfOp(v, a);
    RowOfId(AttemptRowsOfLog(a, v.ops[a].log), r);
    IdsIssued(v, a);
    AttemptRowEntry(a, v.ops[a].log, r);
    var j :| 0 <= j < |v.ops[a].log| && v.ops[a].log[j].record.resulting == InFlight
      && r.transitionSeq == v.ops[a].log[j].eventSeq;
    EntryInLog(v, a, j);
    DispatchBefore(v.events, v.ops[a].machine.identity, v.ops[a].log[j]);
  }

  lemma NoRowsWithoutLog(a: string)
    ensures AttemptRowsOfLog(a, []) == []
  {
  }

  lemma DispatchBefore(events: seq<Event>, id: Identity, e: Entry)
    requires Linked(events, id, e) && e.record.resulting == InFlight
    ensures e.eventSeq >= 2
  {
    hide TransitionFacts;
  }

  /** An issued attempt id has its row. */
  lemma IssuedAttempt(t: Tables, v: Live, x: string)
    requires RepAttempts(t, v.ops) && Inv(v) && x in v.attempts
    ensures exists i :: 0 <= i < |t.attempts| && t.attempts[i].attemptId == x
  {
    hide Inv, RepAttempts, AttemptRowsOfLog, AttemptIds;
    var a := HolderOf(v, x);
    AttemptIdsOfOp(v, a);
    var r := IdOfRow(AttemptRowsOfLog(a, v.ops[a].log), x);
    AttemptsStored(t, v.ops, a);
    assert r in t.attempts;
    var k :| 0 <= k < |t.attempts| && t.attempts[k] == r;
  }

  lemma HolderOf(v: Live, x: string) returns (a: string)
    requires Inv(v) && x in v.attempts
    ensures a in v.ops && x in v.ops[a].machine.attemptIds
  {
    hide LogInv, OpInv, OrderInv;
    a :| a in v.ops && x in v.ops[a].machine.attemptIds;
  }

  /** The attempt rows of an action list its machine's attempt ids. */
  lemma AttemptIdsOfOp(v: Live, a: string)
    requires Inv(v) && a in v.ops
    ensures AttemptIds(AttemptRowsOfLog(a, v.ops[a].log)) == v.ops[a].machine.attemptIds
  {
    HistoryOfOp(v, a);
    hide Inv, Legal, After;
    MachineOfLegal(v.ops[a].machine.identity, v.ops[a].log);
    AttemptRowsCount(a, v.ops[a].log);
  }

  // ---------- One step ----------

  lemma LoggedStep(t: Tables, events: seq<Event>, id: Identity, r: Record, e: Evidence, tick: nat)
    requires RepEvents(t, events) && LogInv(events) && ValidEvidenceMap(TransitionFacts(r, e))
    ensures var result := LogStep(t, id, r, e, tick);
            var more := StepEvents(events, id, r, e, tick);
            if tick < LastTick(events) then result == Err(EventSequence)
            else && result.Ok? && RepEvents(result.value.0, more) && LogInv(more)
                 && result.value.0 == t.(events := result.value.0.events) && result.value.1 == |more|
  {
    hide TransitionFacts, ValidParameterName, UrlFree, RowOfEvent, EventsOf, LogInv, HasEvent, LatestEvent,
         InsertEvent, RepEvents, NextSeq, InsertLifecycleEvent;
    var before := events + [Lifecycle(events, tick, OperationPrepared, id, None, map[])];
    if SuccessfullyPrepared(r) {
      InsertedLifecycle(t, events, tick, OperationPrepared, id, None, map[]);
      if tick >= LastTick(events) {
        var prepared := InsertLifecycleEvent(t, tick, OperationPrepared, id, None, map[]).value;
        InsertedLifecycle(prepared, before, tick, StateTransition, id, r.attemptId, TransitionFacts(r, e));
        NextSeqRead(prepared, before);
      }
    } else {
      InsertedLifecycle(t, events, tick, StateTransition, id, r.attemptId, TransitionFacts(r, e));
      NextSeqRead(t, events);
    }
  }

  lemma OrdinalRead(t: Tables, ops: map<string, LiveOp>, a: string)
    requires RepTransitions(t, ops) && a in ops
    ensures NextOrdinal(t, a) == |ops[a].log| + 1
  {
    TransitionsRead(t, ops, a);
    hide TransitionsOf, RepTransitions, RowOfStep;
    var rows := RowsOfLog(a, ops[a].log);
    assert |rows| > 0 ==> rows[|rows| - 1].ordinal == |rows| by { OrdinalOfEntry(a, ops[a].log); }
  }

  lemma OrdinalOfEntry(a: string, log: seq<Entry>)
    ensures |log| > 0 ==> RowsOfLog(a, log)[|log| - 1].ordinal == |log|
  {
  }

  predicate FreshTransition(t: Tables, row: TransitionRow) {
    forall i | 0 <= i < |t.transitions| ::
      && t.transitions[i].eventSeq != row.eventSeq
      && (t.transitions[i].actionId != row.actionId || t.transitions[i].ordinal != row.ordinal)
  }

  lemma AdmittedTransition(t: Tables, row: TransitionRow)
    requires row.ordinal > 0 && HasOperation(t, row.actionId) && HasEvent(t, row.eventSeq) && FreshTransition(t, row)
    ensures InsertTransitionRow(t, row) == Ok(t.(transitions := t.transitions + [row]))
  {
    hide HasOperation, HasEvent;
  }

  lemma NextTransitionFresh(t: Tables, v: Live, row: TransitionRow)
    requires Inv(v) && RepTransitions(t, v.ops) && row.actionId in v.ops
    requires row.ordinal == |v.ops[row.actionId].log| + 1 && row.eventSeq > |v.events|
    ensures FreshTransition(t, row)
  {
    hide Inv, RepTransitions;
    forall i | 0 <= i < |t.transitions|
      ensures t.transitions[i].eventSeq != row.eventSeq
      ensures t.transitions[i].actionId != row.actionId || t.transitions[i].ordinal != row.ordinal
    {
      StoredTransition(t, v, t.transitions[i]);
    }
  }

  /** No constraint refuses the row of the next entry. */
  lemma InsertedTransition(t: Tables, v: Live, events: seq<Event>, a: string, row: TransitionRow)
    requires Inv(v) && a in v.ops && |v.events| < |events| && LogInv(events)
    requires RepEvents(t, events) && RepOperations(t, v.order, v.ops) && RepTransitions(t, v.ops)
    requires row.actionId == a && row.ordinal == |v.ops[a].log| + 1 && row.eventSeq == |events|
    ensures InsertTransitionRow(t, row) == Ok(t.(transitions := t.transitions + [row]))
  {
    InvNamesActions(v);
    hide Inv, RepEvents, LogInv, RepOperations, RepTransitions, EventsOf, HasEvent, HasOperation, OrderInv,
         ActionsNamed, OrderedEvents, LatestEvent, NextSeq, FindOperation, FreshTransition, InsertTransitionRow;
    OperationRead(t, v, a);
    HasEventRead(t, events, row.eventSeq);
    NextTransitionFresh(t, v, row);
    AdmittedTransition(t, row);
  }

  lemma StoredStep(t: Tables, v: Live, events: seq<Event>, a: string, s: Step, e: Evidence, candidate: Identity)
    requires Inv(v) && a in v.ops && |v.events| < |events| && LogInv(events)
    requires RepEvents(t, events) && RepOperations(t, v.order, v.ops) && RepTransitions(t, v.ops)
    requires s.machine.identity == v.ops[a].machine.identity && s.machine.state == s.record.resulting
    ensures var result := StoreStep(t, v.ops[a].machine.identity, candidate, s.record, e, |events|);
            var ops := v.ops[a := NextOp(v.ops[a], s, e, candidate, |events|)];
            && result.Ok?
            && result.value == t.(operations := result.value.operations, transitions := result.value.transitions)
            && RepOperations(result.value, v.order, ops) && RepTransitions(result.value, ops)
  {
    hide Inv, LogInv, RepEvents, RepOperations, RepTransitions, NextOrdinal, InsertTransitionRow, UpdateOperation,
         OrderInv, TransitionsWhere, ActionsNamed;
    InvNamesActions(v);
    NameOf(v.ops, a);
    var log := v.ops[a].log;
    var next := NextOp(v.ops[a], s, e, candidate, |events|);
    OrdinalRead(t, v.ops, a);
    var row := RowOfStep(a, |log| + 1, |events|, candidate, s.record, e);
    InsertedTransition(t, v, events, a, row);
    var stored := t.(transitions := t.transitions + [row]);
    StoredTransitions(t, stored, v.ops, a, row, next);
    SameOperations(t, stored, v.order, v.ops);
    StoredOperations(stored, v, a, next, s.record.resulting, |events|);
    var updated := stored.(operations := UpdateOperation(stored.operations, a, s.record.resulting, |events|));
    SameTransitions(stored, updated, v.ops[a := next]);
  }

  lemma NameOf(ops: map<string, LiveOp>, a: string)
    requires ActionsNamed(ops) && a in ops
    ensures ops[a].machine.identity.actionId == a
  {
  }

  lemma SameOperations(t: Tables, u: Tables, order: seq<string>, ops: map<string, LiveOp>)
    requires RepOperations(t, order, ops) && u.operations == t.operations
    ensures RepOperations(u, order, ops)
  {
  }

  lemma SameTransitions(t: Tables, u: Tables, ops: map<string, LiveOp>)
    requires RepTransitions(t, ops) && u.transitions == t.transitions
    ensures RepTransitions(u, ops)
  {
  }

  lemma SameAttemptRows(t: Tables, u: Tables, ops: map<string, LiveOp>, more: map<string, LiveOp>)
    requires RepAttempts(t, ops) && u.attempts == t.attempts
    requires forall a :: AttemptRowsOfLog(a, LogOf(more, a)) == AttemptRowsOfLog(a, LogOf(ops, a))
    ensures RepAttempts(u, more)
  {
  }

  lemma StoredTransitions(
    t: Tables, stored: Tables, ops: map<string, LiveOp>, a: string, row: TransitionRow, next: LiveOp)
    requires RepTransitions(t, ops) && a in ops && stored.transitions == t.transitions + [row]
    requires |next.log| == |ops[a].log| + 1 && next.log[..|ops[a].log|] == ops[a].log
    requires row == RowOfEntry(a, |next.log|, next.log[|ops[a].log|]) && row.actionId == a
    ensures RepTransitions(stored, ops[a := next])
  {
    hide RowOfEntry;
    assert stored.transitions[..|t.transitions|] == t.transitions;
    forall b ensures TransitionsWhere(stored.transitions, b) == RowsOfLog(b, LogOf(ops[a := next], b)) {
      assert TransitionsWhere(t.transitions, b) == RowsOfLog(b, LogOf(ops, b));
      if b == a {
        assert RowsOfLog(a, next.log) == RowsOfLog(a, ops[a].log) + [row];
      }
    }
  }

  lemma StoredOperations(t: Tables, v: Live, a: string, next: LiveOp, state: State, updatedSeq: int)
    requires RepOperations(t, v.order, v.ops) && OrderInv(v) && ActionsNamed(v.ops) && a in v.ops
    requires next.machine.identity == v.ops[a].machine.identity && next.machine.state == state
    requires next.createdSeq == v.ops[a].createdSeq && UpdatedSeq(next) == updatedSeq
    ensures RepOperations(t.(operations := UpdateOperation(t.operations, a, state, updatedSeq)), v.order,
                          v.ops[a := next])
  {
    hide UpdatedSeq;
  }

  lemma SameEvents(t: Tables, u: Tables, events: seq<Event>)
    requires RepEvents(t, events) && u.events == t.events
    ensures RepEvents(u, events)
  {
  }

  /** Persisting a step: refused as a whole when its tick moves back, otherwise the tables
      represent the live ledger after the step, except for the attempts table. */
  lemma PersistedStep(
    t: Tables, v: Live, mid: seq<Event>, a: string, s: Step,
    target: State, e: Evidence, candidate: Identity, attemptId: Option<string>, tick: nat)
    requires Inv(v) && a in v.ops && LogInv(mid) && |v.events| <= |mid|
    requires StepOf(v.ops[a], s, target, e, candidate, attemptId)
    requires RepEvents(t, mid) && RepOperations(t, v.order, v.ops) && RepTransitions(t, v.ops)
    ensures var r := PersistStep(t, v.ops[a].machine.identity, candidate, s.record, e, tick);
            if tick < LastTick(mid) then r == Err(EventSequence)
            else
              var after := CommitStep(v.(events := mid), a, s, e, candidate, tick);
              && r.Ok? && r.value.1 == Persisted(s.record, e, |after.events|)
              && RepEvents(r.value.0, after.events) && LogInv(after.events)
              && RepOperations(r.value.0, v.order, after.ops) && RepTransitions(r.value.0, after.ops)
              && r.value.0.attempts == t.attempts && r.value.0.metadata == t.metadata
              && after.ops == v.ops[a := NextOp(v.ops[a], s, e, candidate, |after.events|)]
  {
    hide Inv, LogInv, RepEvents, RepOperations, RepTransitions, TakeStep, ValidAttemptId, ValidEvidenceId,
         ValidEvidenceMap, TransitionFacts, LogStep, StoreStep, StepEvents;
    var op := v.ops[a];
    var id := op.machine.identity;
    FactsValid(op.machine, target, e, candidate, attemptId);
    LoggedStep(t, mid, id, s.record, e, tick);
    if tick >= LastTick(mid) {
      var more := StepEvents(mid, id, s.record, e, tick);
      StepExtends(mid, id, s.record, e, tick);
      var logged := LogStep(t, id, s.record, e, tick).value.0;
      SameOperations(t, logged, v.order, v.ops);
      SameTransitions(t, logged, v.ops);
      StepFits(op, s, target, e, candidate, attemptId, 0);
      FittingEntry(op.machine, Entry(s.record, e, candidate, 0));
      StoredStep(logged, v, more, a, s, e, candidate);
      var stored := StoreStep(logged, id, candidate, s.record, e, |more|).value;
      SameEvents(logged, stored, more);
    }
  }

  lemma AttemptRowsAppend(a: string, log: seq<Entry>, e: Entry)
    ensures AttemptRowsOfLog(a, log + [e]) ==
              if e.record.resulting == InFlight && e.record.attemptId.Some?
              then AttemptRowsOfLog(a, log)
                   + [AttemptRow(e.record.attemptId.value, a, |AttemptRowsOfLog(a, log)| + 1, e.eventSeq - 1,
                                 e.eventSeq)]
              else AttemptRowsOfLog(a, log)
  {
    assert (log + [e])[..|log|] == log;
  }

  // ---------- The calls ----------

  lemma AppendSimulated(t: Tables, v: Live, e: Event)
    requires Rep(t, v) && Inv(v)
    ensures var (after, outcome) := LiveAppend(v, e);
            match Append(t, e)
            case Ok(stored) => outcome == Appended(e) && Rep(stored, after)
            case Err(error) => outcome == Refused(error) && after == v
  {
    InvNamesActions(v);
    hide Inv, LogInv, ValidEvent, InsertEvent, RowOfEvent, RepOperations, RepTransitions, RepAttempts, MetadataAccepted;
    if ValidEvent(e) && !Managed(e.kind) {
      InsertedEvent(t, v.events, e);
      var stored := t.(events := t.events + [RowOfEvent(e)]);
      SameRest(t, stored, v);
    }
  }

  /** Changing the events table alone leaves the rest represented. */
  lemma SameRest(t: Tables, u: Tables, v: Live)
    requires Rep(t, v) && u == t.(events := u.events)
    ensures MetadataAccepted(u, v.runId) && RepOperations(u, v.order, v.ops) && RepTransitions(u, v.ops)
            && RepAttempts(u, v.ops)
  {
  }

  /** A registration up to its snapshot. */
  lemma RegistrationStored(t: Tables, v: Live, id: Identity, tick: nat) returns (stored: Tables)
    requires Rep(t, v) && Inv(v) && id.actionId !in v.ops && tick >= LastTick(v.events)
    ensures Rep(stored, LiveRegister(v, id, tick).0)
    ensures Register(t, id, tick) ==
              match SnapshotOf(stored, id.actionId)
              case Ok(s) => Ok((stored, s))
              case Err(error) => Err(error)
  {
    InvNamesActions(v);
    hide Inv, LogInv, ValidEvidenceMap, InsertLifecycleEvent, SnapshotOf, HasOperation, HasEvent, NextSeq,
         RepEvents, RepOperations, RepTransitions, RepAttempts, MetadataAccepted, OrderInv, ActionsNamed, Lifecycle;
    OperationRead(t, v, id.actionId);
    NextSeqRead(t, v.events);
    NoEvidenceValid();
    InsertedLifecycle(t, v.events, tick, ActionProposed, id, None, map[]);
    var after := LiveRegister(v, id, tick).0;
    var logged := InsertLifecycleEvent(t, tick, ActionProposed, id, None, map[]).value;
    HasEventRead(logged, after.events, |v.events| + 1);
    SameRest(t, logged, v);
    OperationRead(logged, v, id.actionId);
    var row := OperationRow(id, Proposed, |v.events| + 1, |v.events| + 1);
    stored := logged.(operations := logged.operations + [row]);
    RegisteredRows(logged, stored, v, id, tick);
    SameEvents(logged, stored, after.events);
    SameMetadata(logged, stored, v.runId);
  }

  lemma RegisterSimulated(t: Tables, v: Live, id: Identity, tick: nat)
    requires Rep(t, v) && Inv(v)
    ensures var (after, outcome) := LiveRegister(v, id, tick);
            match Register(t, id, tick)
            case Ok((stored, s)) => outcome == Registered(s) && Rep(stored, after)
            case Err(error) => outcome == Refused(error) && after == v
  {
    InvNamesActions(v);
    assert RepOperations(t, v.order, v.ops) && RepEvents(t, v.events);
    hide Inv, LogInv, Rep, ValidEvidenceMap, InsertLifecycleEvent, SnapshotOf, SnapshotOfLive, HasOperation,
         HasEvent, NextSeq, RepEvents, RepOperations, OrderInv, ActionsNamed, Lifecycle;
    OperationRead(t, v, id.actionId);
    if id.actionId !in v.ops {
      if tick < LastTick(v.events) {
        NoEvidenceValid();
        InsertedLifecycle(t, v.events, tick, ActionProposed, id, None, map[]);
      } else {
        var stored := RegistrationStored(t, v, id, tick);
        RegisterKeepsInv(v, id, tick);
        MachineRead(stored, LiveRegister(v, id, tick).0, id.actionId);
      }
    }
  }

  lemma SameMetadata(t: Tables, u: Tables, runId: string)
    requires MetadataAccepted(t, runId) && u.metadata == t.metadata
    ensures MetadataAccepted(u, runId)
  {
  }

  lemma RegisteredRows(t: Tables, u: Tables, v: Live, id: Identity, tick: nat)
    requires RepOperations(t, v.order, v.ops) && RepTransitions(t, v.ops) && RepAttempts(t, v.ops)
    requires id.actionId !in v.ops && tick >= LastTick(v.events)
    requires u == t.(operations := t.operations + [OperationRow(id, Proposed, |v.events| + 1, |v.events| + 1)])
    ensures var after := LiveRegister(v, id, tick).0;
            RepOperations(u, after.order, after.ops) && RepTransitions(u, after.ops) && RepAttempts(u, after.ops)
  {
    hide Lifecycle;
    var after := LiveRegister(v, id, tick).0;
    forall a ensures RowsOfLog(a, LogOf(after.ops, a)) == RowsOfLog(a, LogOf(v.ops, a))
              && AttemptRowsOfLog(a, LogOf(after.ops, a)) == AttemptRowsOfLog(a, LogOf(v.ops, a)) {
      assert LogOf(after.ops, a) == LogOf(v.ops, a);
    }
  }

  /** An entry that does not dispatch leaves the attempt rows as they are. */
  lemma QuietAttempts(t: Tables, u: Tables, ops: map<string, LiveOp>, a: string, next: LiveOp, e: Entry)
    requires RepAttempts(t, ops) && a in ops && u.attempts == t.attempts
    requires next.log == ops[a].log + [e] && e.record.resulting != InFlight
    ensures RepAttempts(u, ops[a := next])
  {
    AttemptRowsAppend(a, ops[a].log, e);
    forall b ensures AttemptRowsOfLog(b, LogOf(ops[a := next], b)) == AttemptRowsOfLog(b, LogOf(ops, b)) {
    }
    SameAttemptRows(t, u, ops, ops[a := next]);
  }

  /** A step that does not dispatch: the transition call, and a dispatch that fails. */
  lemma StepSimulated(
    t: Tables, v: Live, a: string, s: Step,
    target: State, e: Evidence, candidate: Identity, attemptId: Option<string>, tick: nat)
    requires Rep(t, v) && Inv(v) && a in v.ops && s.record.resulting != InFlight
    requires StepOf(v.ops[a], s, target, e, candidate, attemptId)
    ensures var r := PersistStep(t, v.ops[a].machine.identity, candidate, s.record, e, tick);
            if tick < LastTick(v.events) then r == Err(EventSequence)
            else
              var after := CommitStep(v, a, s, e, candidate, tick);
              r.Ok? && r.value.1 == Persisted(s.record, e, |after.events|) && Rep(r.value.0, after)
  {
    InvNamesActions(v);
    hide Inv, LogInv, RepEvents, RepOperations, RepTransitions, TakeStep, ValidAttemptId, ValidEvidenceId,
         TransitionFacts, StepEvents, PersistStep, MetadataAccepted, RepAttempts, OrderInv, ActionsNamed,
         AttemptRowsOfLog;
    PersistedStep(t, v, v.events, a, s, target, e, candidate, attemptId, tick);
    if tick >= LastTick(v.events) {
      var r := PersistStep(t, v.ops[a].machine.identity, candidate, s.record, e, tick);
      var after := CommitStep(v, a, s, e, candidate, tick);
      assert v.(events := v.events) == v;
      QuietAttempts(t, r.value.0, v.ops, a, after.ops[a], Entry(s.record, e, candidate, |after.events|));
      SameMetadata(t, r.value.0, v.runId);
    }
  }

  lemma TransitionSimulated(t: Tables, v: Live, a: string, target: State, e: Evidence, candidate: Identity, tick: nat)
    requires Rep(t, v) && Inv(v)
    ensures var (after, outcome) := LiveTransition(v, a, target, e, candidate, tick);
            var (stored, r) := Transition(t, a, target, e, candidate, tick);
            Rep(stored, after) && outcome == if r.Ok? then Moved(r.value) else Refused(r.error)
  {
    hide Inv, Rep, TakeStep, ValidEvidenceId, PersistStep, LoadMachine, SnapshotOf, CommitStep;
    MachineRead(t, v, a);
    if ValidEvidenceId(e.evidenceId) && target != InFlight && a in v.ops {
      var m := v.ops[a].machine;
      var s := TakeStep(m, target, e, candidate, None);
      HistoryGrows(m, target, e, candidate, None);
      if m.state != Violation {
        StaysOut(m, target, e, candidate);
        StepSimulated(t, v, a, s, target, e, candidate, None, tick);
      }
    }
  }

  // ---------- Dispatch ----------

  predicate FreshAttempt(t: Tables, row: AttemptRow) {
    forall i | 0 <= i < |t.attempts| ::
      && t.attempts[i].attemptId != row.attemptId
      && t.attempts[i].dispatchSeq != row.dispatchSeq
      && t.attempts[i].transitionSeq != row.transitionSeq
      && (t.attempts[i].actionId != row.actionId || t.attempts[i].ordinal != row.ordinal)
  }

  lemma AdmittedAttempt(t: Tables, row: AttemptRow)
    requires row.ordinal > 0 && HasOperation(t, row.actionId)
    requires HasEvent(t, row.dispatchSeq) && HasEvent(t, row.transitionSeq) && FreshAttempt(t, row)
    ensures InsertAttemptRow(t, row) == Ok(t.(attempts := t.attempts + [row]))
  {
    hide HasOperation, HasEvent;
  }

  lemma NextAttemptFresh(t: Tables, v: Live, row: AttemptRow)
    requires Inv(v) && RepAttempts(t, v.ops) && row.actionId in v.ops
    requires row.attemptId !in v.attempts && row.dispatchSeq > |v.events| && row.transitionSeq > |v.events|
    requires row.ordinal == |v.ops[row.actionId].machine.attemptIds| + 1
    ensures FreshAttempt(t, row)
  {
    hide Inv, RepAttempts, AttemptRowsOfLog;
    forall i | 0 <= i < |t.attempts|
      ensures t.attempts[i].attemptId != row.attemptId
      ensures t.attempts[i].dispatchSeq != row.dispatchSeq
      ensures t.attempts[i].transitionSeq != row.transitionSeq
      ensures t.attempts[i].actionId != row.actionId || t.attempts[i].ordinal != row.ordinal
    {
      StoredAttempt(t, v, t.attempts[i]);
    }
  }

  /** The attempt row of a dispatch is refused exactly when the id was issued before. */
  lemma InsertedAttempt(t: Tables, u: Tables, v: Live, events: seq<Event>, ops: map<string, LiveOp>, row: AttemptRow)
    requires Inv(v) && RepAttempts(t, v.ops) && u.attempts == t.attempts
    requires row.actionId in v.ops && ActionsNamed(ops)
    requires RepEvents(u, events) && LogInv(events) && RepOperations(u, v.order, ops)
    requires |v.events| < row.dispatchSeq < row.transitionSeq <= |events|
    requires row.ordinal == |v.ops[row.actionId].machine.attemptIds| + 1
    ensures row.attemptId in v.attempts ==> InsertAttemptRow(u, row).Err?
    ensures row.attemptId !in v.attempts ==> InsertAttemptRow(u, row) == Ok(u.(attempts := u.attempts + [row]))
  {
    if row.attemptId in v.attempts {
      hide Inv, RepEvents, RepOperations, RepAttempts, HasOperation, HasEvent, OrderInv, ActionsNamed, LogInv;
      IssuedAttempt(t, v, row.attemptId);
    } else {
      hide Inv, RepEvents, RepOperations, RepAttempts, FreshAttempt, HasOperation, HasEvent, OrderInv, ActionsNamed,
           LogInv, InsertAttemptRow, EventsOf, LatestEvent, NextSeq, OrderedEvents;
      ActionInOrder(v, row.actionId);
      HasRow(u, v.order, ops, row.actionId);
      HasEventRead(u, events, row.dispatchSeq);
      HasEventRead(u, events, row.transitionSeq);
      NextAttemptFresh(t, v, row);
      assert FreshAttempt(u, row) by { SameFresh(t, u, row); }
      AdmittedAttempt(u, row);
    }
  }

  lemma ActionInOrder(v: Live, a: string)
    requires Inv(v) && a in v.ops
    ensures a in v.order
  {
    hide LogInv, OpInv;
  }

  lemma SameFresh(t: Tables, u: Tables, row: AttemptRow)
    requires FreshAttempt(t, row) && u.attempts == t.attempts
    ensures FreshAttempt(u, row)
  {
  }

  lemma HasRow(t: Tables, order: seq<string>, ops: map<string, LiveOp>, a: string)
    requires RepOperations(t, order, ops) && ActionsNamed(ops) && a in order
    ensures HasOperation(t, a)
  {
    var i :| 0 <= i < |order| && order[i] == a;
    assert t.operations[i].identity.actionId == a;
  }

  lemma StoredAttempts(
    t: Tables, u: Tables, ops: map<string, LiveOp>, a: string, next: LiveOp, e: Entry, row: AttemptRow)
    requires RepAttempts(t, ops) && a in ops && u.attempts == t.attempts + [row]
    requires next.log == ops[a].log + [e] && e.record.resulting == InFlight && e.record.attemptId.Some?
    requires row == AttemptRow(e.record.attemptId.value, a, |AttemptRowsOfLog(a, ops[a].log)| + 1, e.eventSeq - 1,
                               e.eventSeq)
    ensures RepAttempts(u, ops[a := next])
  {
    assert u.attempts[..|t.attempts|] == t.attempts;
    AttemptRowsAppend(a, ops[a].log, e);
    forall b ensures AttemptsWhere(u.attempts, b) == AttemptRowsOfLog(b, LogOf(ops[a := next], b)) {
      assert AttemptsWhere(t.attempts, b) == AttemptRowsOfLog(b, LogOf(ops, b));
    }
  }

  function DispatchedLog(v: Live, a: string, attemptId: string, tick: nat): seq<Event>
    requires a in v.ops
  {
    v.events + [Lifecycle(v.events, tick, AttemptDispatched, v.ops[a].machine.identity, Some(attemptId), map[])]
  }

  function AfterDispatchCall(
    v: Live, a: string, s: Step, attemptId: string, e: Evidence, candidate: Identity, tick: nat): Live
    requires a in v.ops
  {
    CommitStep(v.(events := DispatchedLog(v, a, attemptId, tick), attempts := v.attempts + {attemptId}),
               a, s, e, candidate, tick)
  }

  /** A dispatch up to its attempt row. */
  lemma DispatchPersisted(
    t: Tables, v: Live, a: string, s: Step, attemptId: string, e: Evidence, candidate: Identity, tick: nat)
    returns (stored: Tables, row: AttemptRow)
    requires Rep(t, v) && Inv(v) && a in v.ops && s.record.resulting == InFlight && tick >= LastTick(v.events)
    requires s.machine.identity == v.ops[a].machine.identity
    requires StepOf(v.ops[a], s, InFlight, e, candidate, Some(attemptId))
    ensures var after := AfterDispatchCall(v, a, s, attemptId, e, candidate, tick);
            && |after.events| == |v.events| + 2
            && row == AttemptRow(attemptId, a, |s.machine.attemptIds|, |v.events| + 1, |v.events| + 2)
            && RepEvents(stored, after.events) && LogInv(after.events)
            && RepOperations(stored, v.order, after.ops) && RepTransitions(stored, after.ops)
            && stored.attempts == t.attempts && stored.metadata == t.metadata
            && after.ops == v.ops[a := NextOp(v.ops[a], s, e, candidate, |after.events|)]
    ensures PersistDispatch(t, v.runId, s.machine, attemptId, candidate, s.record, e, tick) ==
              match InsertAttemptRow(stored, row)
              case Err(_) => Err(Integrity)
              case Ok(final) => Ok((final, Permit(v.runId, a, attemptId, |v.events| + 1, |v.events| + 2)))
  {
    InvNamesActions(v);
    var id := v.ops[a].machine.identity;
    assert id.actionId == a;
    hide Inv, LogInv, RepEvents, RepOperations, RepTransitions, RepAttempts, TakeStep, ValidAttemptId, ValidEvidenceId,
         TransitionFacts, StepEvents, PersistStep, MetadataAccepted, OrderInv, ActionsNamed, InsertLifecycleEvent,
         InsertAttemptRow, AttemptRowsOfLog, SuccessfullyPrepared, NextSeq, Lifecycle, PersistDispatch;
    NextSeqRead(t, v.events);
    NoEvidenceValid();
    InsertedLifecycle(t, v.events, tick, AttemptDispatched, id, Some(attemptId), map[]);
    var mid := DispatchedLog(v, a, attemptId, tick);
    var dispatched := InsertLifecycleEvent(t, tick, AttemptDispatched, id, Some(attemptId), map[]).value;
    SameRest(t, dispatched, v);
    assert LastTick(mid) == tick by { LifecycleTick(v.events, tick, id, Some(attemptId)); }
    PersistedStep(dispatched, v, mid, a, s, InFlight, e, candidate, Some(attemptId), tick);
    StepExtends(mid, id, s.record, e, tick);
    DispatchNotPrepared(s.record);
    stored := PersistStep(dispatched, id, candidate, s.record, e, tick).value.0;
    row := AttemptRow(attemptId, a, |s.machine.attemptIds|, |v.events| + 1, |v.events| + 2);
    PersistDispatchRow(t, v.runId, s.machine, attemptId, candidate, s.record, e, tick);
  }

  /** A dispatch that logs and persists its step is left with one row to insert. */
  lemma PersistDispatchRow(
    t: Tables, runId: string, m: Machine, x: string, candidate: Identity, r: Record, e: Evidence, tick: nat)
    requires InsertLifecycleEvent(t, tick, AttemptDispatched, m.identity, Some(x), map[]).Ok?
    requires PersistStep(InsertLifecycleEvent(t, tick, AttemptDispatched, m.identity, Some(x), map[]).value,
                         m.identity, candidate, r, e, tick).Ok?
    ensures var (stored, p) :=
              PersistStep(InsertLifecycleEvent(t, tick, AttemptDispatched, m.identity, Some(x), map[]).value,
                                           m.identity, candidate, r, e, tick).value;
            PersistDispatch(t, runId, m, x, candidate, r, e, tick) ==
              match InsertAttemptRow(stored, AttemptRow(x, m.identity.actionId, |m.attemptIds|, NextSeq(t), p.eventSeq))
              case Err(_) => Err(Integrity)
              case Ok(final) => Ok((final, Permit(runId, m.identity.actionId, x, NextSeq(t), p.eventSeq)))
  {
    hide InsertLifecycleEvent, PersistStep, InsertAttemptRow, NextSeq;
  }

  lemma LifecycleTick(events: seq<Event>, tick: nat, id: Identity, attemptId: Option<string>)
    ensures LastTick(events + [Lifecycle(events, tick, AttemptDispatched, id, attemptId, map[])]) == tick
  {
  }

  lemma DispatchFacts(op: LiveOp, s: Step, attemptId: string, e: Evidence, candidate: Identity)
    requires StepOf(op, s, InFlight, e, candidate, Some(attemptId)) && s.record.resulting == InFlight
    ensures s.machine.identity == op.machine.identity && s.machine.attemptIds == op.machine.attemptIds + [attemptId]
    ensures s.record.attemptId == Some(attemptId)
  {
    StepFits(op, s, InFlight, e, candidate, Some(attemptId), 0);
    hide TakeStep, ValidAttemptId, ValidEvidenceId, Link, Fits;
    FittingEntry(op.machine, Entry(s.record, e, candidate, 0));
    RecordKeepsInputs(op.machine, InFlight, e, candidate, Some(attemptId));
  }

  /** A dispatching step: both events, the transition row and the attempt row, or nothing. */
  lemma DispatchingStep(
    t: Tables, v: Live, a: string, s: Step, attemptId: string, e: Evidence, candidate: Identity, tick: nat)
    requires Rep(t, v) && Inv(v) && a in v.ops && s.record.resulting == InFlight
    requires tick >= LastTick(v.events)
    requires StepOf(v.ops[a], s, InFlight, e, candidate, Some(attemptId))
    ensures var r := PersistDispatch(t, v.runId, s.machine, attemptId, candidate, s.record, e, tick);
            var after := AfterDispatchCall(v, a, s, attemptId, e, candidate, tick);
            if attemptId in v.attempts then r == Err(Integrity)
            else && r.Ok? && Rep(r.value.0, after)
                 && r.value.1 == Permit(v.runId, a, attemptId, |v.events| + 1, |after.events|)
  {
    var op := v.ops[a];
    InvNamesActions(v);
    hide Inv, LogInv, RepEvents, RepOperations, RepTransitions, RepAttempts, PersistDispatch, MetadataAccepted,
         OrderInv, ActionsNamed, InsertAttemptRow, AttemptRowsOfLog, AfterDispatchCall, StepOf;
    DispatchFacts(op, s, attemptId, e, candidate);
    var stored, row := DispatchPersisted(t, v, a, s, attemptId, e, candidate, tick);
    var after := AfterDispatchCall(v, a, s, attemptId, e, candidate, tick);
    CommitKeepsHandle(v, a, s, attemptId, e, candidate, tick);
    AttemptStored(t, stored, v, after, a, Entry(s.record, e, candidate, |after.events|), s.machine, row);
  }

  /** With everything else stored, the attempt row completes the representation. */
  lemma AttemptStored(
    t: Tables, stored: Tables, v: Live, after: Live, a: string, entry: Entry, m: Machine, row: AttemptRow)
    requires Rep(t, v) && Inv(v) && a in v.ops
    requires m.identity == v.ops[a].machine.identity && |m.attemptIds| == |v.ops[a].machine.attemptIds| + 1
    requires after.ops == v.ops[a := LiveOp(m, v.ops[a].createdSeq, v.ops[a].log + [entry])]
    requires after.order == v.order && after.runId == v.runId && |after.events| == |v.events| + 2
    requires RepEvents(stored, after.events) && LogInv(after.events)
    requires RepOperations(stored, v.order, after.ops) && RepTransitions(stored, after.ops)
    requires stored.attempts == t.attempts && stored.metadata == t.metadata
    requires entry.record.resulting == InFlight && entry.record.attemptId == Some(row.attemptId)
    requires entry.eventSeq == |after.events|
    requires row == AttemptRow(row.attemptId, a, |m.attemptIds|, |v.events| + 1, |v.events| + 2)
    ensures row.attemptId in v.attempts ==> InsertAttemptRow(stored, row).Err?
    ensures row.attemptId !in v.attempts ==>
              && InsertAttemptRow(stored, row) == Ok(stored.(attempts := stored.attempts + [row]))
              && Rep(stored.(attempts := stored.attempts + [row]), after)
  {
    hide Inv, Rep, LogInv, RepEvents, RepOperations, RepTransitions, RepAttempts, MetadataAccepted, OrderInv,
         ActionsNamed, InsertAttemptRow, AttemptRowsOfLog;
    InvNamesActions(v);
    RepParts(t, v);
    NamedAfter(v.ops, a, after.ops[a]);
    InsertedAttempt(t, stored, v, after.events, after.ops, row);
    if row.attemptId !in v.attempts {
      var final := stored.(attempts := stored.attempts + [row]);
      AttemptCount(v, a);
      StoredAttempts(t, final, v.ops, a, after.ops[a], entry, row);
      SameEvents(stored, final, after.events);
      SameOperations(stored, final, v.order, after.ops);
      SameTransitions(stored, final, after.ops);
      SameMetadata(t, final, v.runId);
      RepWhole(final, after);
    }
  }

  lemma RepParts(t: Tables, v: Live)
    requires Rep(t, v)
    ensures MetadataAccepted(t, v.runId) && RepEvents(t, v.events) && RepOperations(t, v.order, v.ops)
    ensures RepTransitions(t, v.ops) && RepAttempts(t, v.ops)
  {
    hide MetadataAccepted, RepEvents, RepOperations, RepTransitions, RepAttempts;
  }

  lemma RepWhole(t: Tables, v: Live)
    requires MetadataAccepted(t, v.runId) && RepEvents(t, v.events) && RepOperations(t, v.order, v.ops)
    requires RepTransitions(t, v.ops) && RepAttempts(t, v.ops)
    ensures Rep(t, v)
  {
    hide MetadataAccepted, RepEvents, RepOperations, RepTransitions, RepAttempts;
  }

  lemma CommitKeepsHandle(v: Live, a: string, s: Step, attemptId: string, e: Evidence, candidate: Identity, tick: nat)
    requires a in v.ops
    ensures var after := AfterDispatchCall(v, a, s, attemptId, e, candidate, tick);
            after.order == v.order && after.runId == v.runId && after.closed == v.closed
  {
    hide StepEvents;
  }

  /** A dispatch whose tick moves back is refused as a whole. */
  lemma StaleDispatch(
    t: Tables, v: Live, m: Machine, attemptId: string, r: Record, e: Evidence, candidate: Identity, tick: nat)
    requires Rep(t, v) && Inv(v) && tick < LastTick(v.events)
    ensures PersistDispatch(t, v.runId, m, attemptId, candidate, r, e, tick) == Err(EventSequence)
  {
    InvNamesActions(v);
    hide Inv, LogInv, RepEvents, RepOperations, RepTransitions, RepAttempts, PersistStep, InsertLifecycleEvent,
         InsertAttemptRow;
    NoEvidenceValid();
    InsertedLifecycle(t, v.events, tick, AttemptDispatched, m.identity, Some(attemptId), map[]);
  }

  lemma DispatchNotPrepared(r: Record)
    ensures r.resulting == InFlight ==> !SuccessfullyPrepared(r)
  {
  }

  lemma NamedAfter(ops: map<string, LiveOp>, a: string, next: LiveOp)
    requires ActionsNamed(ops) && a in ops && next.machine.identity == ops[a].machine.identity
    ensures ActionsNamed(ops[a := next])
  {
  }

  lemma AttemptCount(v: Live, a: string)
    requires Inv(v) && a in v.ops
    ensures |AttemptRowsOfLog(a, v.ops[a].log)| == |v.ops[a].machine.attemptIds|
  {
    hide Inv, AttemptRowsOfLog;
    AttemptIdsOfOp(v, a);
    assert |AttemptIds(AttemptRowsOfLog(a, v.ops[a].log))| == |AttemptRowsOfLog(a, v.ops[a].log)|;
  }

  lemma DispatchSimulated(t: Tables, v: Live, a: string, attemptId: string, e: Evidence, candidate: Identity, tick: nat)
    requires Rep(t, v) && Inv(v)
    ensures var (after, outcome) := LiveDispatch(v, a, attemptId, e, candidate, tick);
            var (stored, r) := Dispatch(t, v.runId, a, attemptId, e, candidate, tick);
            Rep(stored, after) && outcome == if r.Ok? then Permitted(r.value) else Refused(r.error)
  {
    hide Inv, Rep, TakeStep, ValidEvidenceId, ValidAttemptId, PersistStep, PersistDispatch, LoadMachine, SnapshotOf,
         CommitStep;
    MachineRead(t, v, a);
    if ValidAttemptId(attemptId) && ValidEvidenceId(e.evidenceId) && a in v.ops {
      var m := v.ops[a].machine;
      var s := TakeStep(m, InFlight, e, candidate, Some(attemptId));
      HistoryGrows(m, InFlight, e, candidate, Some(attemptId));
      SucceedsExactly(m, InFlight, e, candidate, Some(attemptId));
      if m.state != Violation {
        if s.raised {
          RaisesExactly(m, InFlight, e, candidate, Some(attemptId));
          StepSimulated(t, v, a, s, InFlight, e, candidate, Some(attemptId), tick);
        } else if tick < LastTick(v.events) {
          StaleDispatch(t, v, s.machine, attemptId, s.record, e, candidate, tick);
        } else {
          DispatchingStep(t, v, a, s, attemptId, e, candidate, tick);
        }
      }
    }
  }
}
