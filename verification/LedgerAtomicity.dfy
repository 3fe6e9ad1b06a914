/** What failing calls leave behind, on any tables at all: nothing, or exactly one
    committed violation. And no call can break a key of the tables. */
module LedgerAtomicity {
  import opened Wrappers
  import opened StateMachine
  import opened Histories
  import opened Contracts
  import opened LedgerTables
  import opened LedgerCalls
  import opened LedgerChecker
  import opened LedgerProtocol

  /** One event, one transition row and the cached state VIOLATION, whatever identity the
      caller claimed; nothing else changes. */
  predicate CommitsViolation(
    t: Tables, u: Tables, id: Identity, candidate: Identity, r: Record, e: Evidence, tick: nat)
  {
    var n := NextSeq(t);
    && r.resulting == Violation && r.violationReason.Some?
    && u.events == t.events
         + [RowOfEvent(Event(n, tick, StateTransition, IdentityLinks(id, r.attemptId), TransitionFacts(r, e)))]
    && |u.transitions| == |t.transitions| + 1 && u.transitions[..|t.transitions|] == t.transitions
    && (var row := u.transitions[|t.transitions|];
        && row.actionId == id.actionId && row.eventSeq == n && row.candidate == candidate && RecordOfRow(row) == r)
    && u.operations == UpdateOperation(t.operations, id.actionId, Violation, n)
    && u.attempts == t.attempts && u.metadata == t.metadata
  }

  lemma PersistedViolation(t: Tables, id: Identity, candidate: Identity, r: Record, e: Evidence, tick: nat)
    requires r.resulting == Violation && r.violationReason.Some? && PersistStep(t, id, candidate, r, e, tick).Ok?
    ensures CommitsViolation(t, PersistStep(t, id, candidate, r, e, tick).value.0, id, candidate, r, e, tick)
  {
    hide TransitionFacts, RowOfEvent, NextSeq, LatestEvent, ValidEvent, UpdateOperation, HasEvent, HasOperation,
         NextOrdinal;
  }

  /** The action and claimed identity of a call that may raise a violation. */
  predicate StepCall(c: Call) {
    c.TransitionCall? || c.DispatchCall?
  }

  /** The identity a machine was loaded with is the row's. */
  lemma LoadedIdentity(t: Tables, a: string)
    requires LoadMachine(t, a).Ok?
    ensures LoadMachine(t, a).value.0.identity.actionId == a
  {
    FindOperationSound(t.operations, a);
    var row := FindOperation(t.operations, a).value;
    ReplayExact(row.identity, TransitionsOf(t, a));
    MachineOfLegal(row.identity, EntriesOfRows(TransitionsOf(t, a)));
  }

  lemma LoadErrors(t: Tables, a: string)
    ensures LoadMachine(t, a).Err? ==> !LoadMachine(t, a).error.InvalidTransition?
  {
    if FindOperation(t.operations, a).Some? {
      hide Replay;
      ReplayExact(FindOperation(t.operations, a).value.identity, TransitionsOf(t, a));
    }
  }

  lemma PersistErrors(t: Tables, id: Identity, candidate: Identity, r: Record, e: Evidence, tick: nat)
    ensures var p := PersistStep(t, id, candidate, r, e, tick); p.Err? ==> !p.error.InvalidTransition?
  {
    hide ValidEvent, RowOfEvent, TransitionFacts, NextSeq, LatestEvent, HasEvent, HasOperation, NextOrdinal;
  }

  lemma DispatchErrors(
    t: Tables, runId: string, m: Machine, x: string, candidate: Identity, r: Record, e: Evidence, tick: nat)
    ensures var p := PersistDispatch(t, runId, m, x, candidate, r, e, tick); p.Err? ==> !p.error.InvalidTransition?
  {
    hide ValidEvent, RowOfEvent, NextSeq, LatestEvent, HasEvent, HasOperation, PersistStep, InsertAttemptRow;
    forall u: Tables { PersistErrors(u, m.identity, candidate, r, e, tick); }
  }

  /** What one refused step leaves behind. */
  predicate RefusalOf(
    t: Tables, u: Tables, a: string, target: State, x: Option<string>, e: Evidence, candidate: Identity, tick: nat,
    error: LedgerError)
  {
    && (!error.InvalidTransition? ==> u == t)
    && (error.InvalidTransition? ==>
          && LoadMachine(t, a).Ok?
          && var m := LoadMachine(t, a).value.0;
          && error.record == TakeStep(m, target, e, candidate, x).record
          && if m.state == Violation then u == t
             else CommitsViolation(t, u, m.identity, candidate, error.record, e, tick))
  }

  lemma TransitionRefused(t: Tables, a: string, target: State, e: Evidence, candidate: Identity, tick: nat)
    ensures var (u, r) := Transition(t, a, target, e, candidate, tick);
            r.Err? ==> RefusalOf(t, u, a, target, None, e, candidate, tick, r.error)
  {
    hide TakeStep, PersistStep, LoadMachine, ValidAttemptId, ValidEvidenceId, CommitsViolation;
    LoadErrors(t, a);
    if LoadMachine(t, a).Ok? {
      var m := LoadMachine(t, a).value.0;
      var s := TakeStep(m, target, e, candidate, None);
      HistoryGrows(m, target, e, candidate, None);
      PersistErrors(t, m.identity, candidate, s.record, e, tick);
      if s.raised {
        RaisesExactly(m, target, e, candidate, None);
        if PersistStep(t, m.identity, candidate, s.record, e, tick).Ok? {
          PersistedViolation(t, m.identity, candidate, s.record, e, tick);
        }
      }
    }
  }

  lemma DispatchRefused(t: Tables, runId: string, a: string, x: string, e: Evidence, candidate: Identity, tick: nat)
    ensures var (u, r) := Dispatch(t, runId, a, x, e, candidate, tick);
            r.Err? ==> RefusalOf(t, u, a, InFlight, Some(x), e, candidate, tick, r.error)
  {
    hide TakeStep, PersistStep, PersistDispatch, LoadMachine, ValidAttemptId, ValidEvidenceId, CommitsViolation;
    LoadErrors(t, a);
    if LoadMachine(t, a).Ok? {
      var m := LoadMachine(t, a).value.0;
      var s := TakeStep(m, InFlight, e, candidate, Some(x));
      HistoryGrows(m, InFlight, e, candidate, Some(x));
      PersistErrors(t, m.identity, candidate, s.record, e, tick);
      DispatchErrors(t, runId, s.machine, x, candidate, s.record, e, tick);
      if s.raised {
        RaisesExactly(m, InFlight, e, candidate, Some(x));
        if PersistStep(t, m.identity, candidate, s.record, e, tick).Ok? {
          PersistedViolation(t, m.identity, candidate, s.record, e, tick);
        }
      }
    }
  }

  /** Failure atomicity over every call and every ledger: any error but an invalid
      transition leaves the tables as they were; an invalid transition leaves them when
      the action is already in VIOLATION, and otherwise commits exactly one violation. */
  lemma FailureAtomicity(l: Ledger, c: Call)
    requires Perform(l, c).1.Refused?
    ensures var (after, outcome) := Perform(l, c);
            && (!outcome.error.InvalidTransition? ==> after.tables == l.tables)
            && (outcome.error.InvalidTransition? ==>
                  && StepCall(c) && LoadMachine(l.tables, c.actionId).Ok?
                  && var m := LoadMachine(l.tables, c.actionId).value.0;
                  && m.identity.actionId == c.actionId
                  && if m.state == Violation then after.tables == l.tables
                     else CommitsViolation(l.tables, after.tables, m.identity, c.candidate, outcome.error.record,
                                           c.evidence, c.tick))
  {
    hide Accepted, Append, Register, Transition, Dispatch, SnapshotOf, Snapshots, EventsOf, NextSeq, LoadMachine,
         CommitsViolation, TakeStep;
    var t := l.tables;
    match c {
      case AppendCall(e) => AppendErrors(t, e);
      case RegisterCall(id, tick) => RegisterErrors(t, id, tick);
      case TransitionCall(a, target, e, candidate, tick) =>
        TransitionRefused(t, a, target, e, candidate, tick);
        var (u, r) := Transition(t, a, target, e, candidate, tick);
        assert !l.closed ==> Perform(l, c).0.tables == u && r.Err? && Perform(l, c).1.error == r.error;
        if LoadMachine(t, a).Ok? { LoadedIdentity(t, a); }
      case DispatchCall(a, attemptId, e, candidate, tick) =>
        DispatchRefused(t, l.runId, a, attemptId, e, candidate, tick);
        var (u, r) := Dispatch(t, l.runId, a, attemptId, e, candidate, tick);
        assert !l.closed ==> Perform(l, c).0.tables == u && r.Err? && Perform(l, c).1.error == r.error;
        if LoadMachine(t, a).Ok? { LoadedIdentity(t, a); }
      case OperationCall(a) => SnapshotErrors(t, a);
      case OperationsCall =>
        SnapshotsAre(t);
        SnapshotsErrors(t, OrderedOperations(t));
      case EventsCall =>
        EventsAre(t);
        EventsErrors(OrderedEvents(t));
      case _ =>
    }
  }

  lemma SnapshotsAre(t: Tables)
    ensures Snapshots(t) == SnapshotsOfRows(t, OrderedOperations(t))
  {
  }

  lemma EventsAre(t: Tables)
    ensures EventsOf(t) == EventsOfRows(OrderedEvents(t))
  {
  }

  lemma AppendErrors(t: Tables, e: Event)
    ensures Append(t, e).Err? ==> !Append(t, e).error.InvalidTransition?
  {
  }

  lemma SnapshotErrors(t: Tables, a: string)
    ensures SnapshotOf(t, a).Err? ==> !SnapshotOf(t, a).error.InvalidTransition?
  {
    hide LoadMachine;
    LoadErrors(t, a);
  }

  lemma {:induction false} SnapshotsErrors(t: Tables, rows: seq<OperationRow>)
    ensures SnapshotsOfRows(t, rows).Err? ==> !SnapshotsOfRows(t, rows).error.InvalidTransition?
  {
    hide SnapshotOf;
    if |rows| > 0 {
      SnapshotsErrors(t, rows[..|rows| - 1]);
      SnapshotErrors(t, rows[|rows| - 1].identity.actionId);
    }
  }

  lemma {:induction false} EventsErrors(rows: seq<EventRow>)
    ensures EventsOfRows(rows).Err? ==> !EventsOfRows(rows).error.InvalidTransition?
  {
    hide CanonicalJson.Loads, CanonicalJson.Print, ValidEvent;
    if |rows| > 0 {
      EventsErrors(rows[..|rows| - 1]);
    }
  }

  lemma RegisterErrors(t: Tables, id: Identity, tick: nat)
    ensures Register(t, id, tick).Err? ==> !Register(t, id, tick).error.InvalidTransition?
  {
    hide SnapshotOf, HasOperation, HasEvent, NextSeq, LatestEvent, ValidEvent, RowOfEvent;
    forall u: Tables { SnapshotErrors(u, id.actionId); }
  }

  // ---------- Keys ----------

  lemma InsertEventKeyed(t: Tables, e: Event)
    requires Keyed(t) && InsertEvent(t, e).Ok?
    ensures Keyed(InsertEvent(t, e).value)
  {
    hide ValidEvidenceMap, CanonicalJson.Print, NextSeq, LatestEvent;
    var u := InsertEvent(t, e).value;
    forall i | 0 <= i < |t.events| ensures t.events[i].seqNo != e.seqNo {
      assert !HasEvent(t, e.seqNo);
    }
    assert forall i | 0 <= i < |t.events| :: u.events[i] == t.events[i];
  }

  lemma LogStepKeyed(t: Tables, id: Identity, r: Record, e: Evidence, tick: nat)
    requires Keyed(t) && LogStep(t, id, r, e, tick).Ok?
    ensures Keyed(LogStep(t, id, r, e, tick).value.0)
  {
    hide InsertEvent, Keyed, TransitionFacts, NextSeq;
    var prepared := Event(NextSeq(t), tick, OperationPrepared, IdentityLinks(id, None), map[]);
    if SuccessfullyPrepared(r) {
      InsertEventKeyed(t, prepared);
    }
    var before := if SuccessfullyPrepared(r) then InsertEvent(t, prepared).value else t;
    InsertEventKeyed(
      before,
      Event(NextSeq(before), tick, StateTransition, IdentityLinks(id, r.attemptId), TransitionFacts(r, e)));
  }

  lemma StoreStepKeyed(t: Tables, id: Identity, candidate: Identity, r: Record, e: Evidence, eventSeq: int)
    requires Keyed(t) && StoreStep(t, id, candidate, r, e, eventSeq).Ok?
    ensures Keyed(StoreStep(t, id, candidate, r, e, eventSeq).value)
  {
    hide NextOrdinal, HasEvent, HasOperation, EventsKeyed, AttemptsKeyed;
    var u := StoreStep(t, id, candidate, r, e, eventSeq).value;
    assert EventsKeyed(u) by { SameEventKeys(t, u); }
    assert AttemptsKeyed(u) by { SameAttemptKeys(t, u); }
  }

  lemma SameEventKeys(t: Tables, u: Tables)
    requires EventsKeyed(t) && u.events == t.events
    ensures EventsKeyed(u)
  {
  }

  lemma SameAttemptKeys(t: Tables, u: Tables)
    requires AttemptsKeyed(t) && u.attempts == t.attempts
    ensures AttemptsKeyed(u)
  {
  }

  lemma PersistStepKeyed(t: Tables, id: Identity, candidate: Identity, r: Record, e: Evidence, tick: nat)
    requires Keyed(t) && PersistStep(t, id, candidate, r, e, tick).Ok?
    ensures Keyed(PersistStep(t, id, candidate, r, e, tick).value.0)
  {
    hide Keyed, LogStep, StoreStep;
    LogStepKeyed(t, id, r, e, tick);
    var (logged, n) := LogStep(t, id, r, e, tick).value;
    StoreStepKeyed(logged, id, candidate, r, e, n);
  }

  lemma InsertAttemptKeyed(t: Tables, row: AttemptRow)
    requires Keyed(t) && InsertAttemptRow(t, row).Ok?
    ensures Keyed(InsertAttemptRow(t, row).value)
  {
    hide HasEvent, HasOperation;
  }

  lemma DispatchKeyed(
    t: Tables, runId: string, m: Machine, x: string, candidate: Identity, r: Record, e: Evidence, tick: nat)
    requires Keyed(t) && PersistDispatch(t, runId, m, x, candidate, r, e, tick).Ok?
    ensures Keyed(PersistDispatch(t, runId, m, x, candidate, r, e, tick).value.0)
  {
    hide Keyed, PersistStep, InsertEvent, InsertAttemptRow, NextSeq;
    var event := Event(NextSeq(t), tick, AttemptDispatched, IdentityLinks(m.identity, Some(x)), map[]);
    InsertEventKeyed(t, event);
    var dispatched := InsertEvent(t, event).value;
    PersistStepKeyed(dispatched, m.identity, candidate, r, e, tick);
    var (stored, p) := PersistStep(dispatched, m.identity, candidate, r, e, tick).value;
    InsertAttemptKeyed(stored, AttemptRow(x, m.identity.actionId, |m.attemptIds|, NextSeq(t), p.eventSeq));
  }

  lemma RegisterKeyed(t: Tables, id: Identity, tick: nat)
    requires Keyed(t) && Register(t, id, tick).Ok?
    ensures Keyed(Register(t, id, tick).value.0)
  {
    hide InsertEvent, NextSeq, SnapshotOf, HasEvent, EventsKeyed, TransitionsKeyed, AttemptsKeyed;
    var event := Event(NextSeq(t), tick, ActionProposed, IdentityLinks(id, None), map[]);
    InsertEventKeyed(t, event);
    var logged := InsertEvent(t, event).value;
    var u := Register(t, id, tick).value.0;
    assert EventsKeyed(u) && AttemptsKeyed(u) by { SameEventKeys(logged, u); SameAttemptKeys(logged, u); }
    assert TransitionsKeyed(u) by { SameTransitionKeys(logged, u); }
  }

  lemma SameTransitionKeys(t: Tables, u: Tables)
    requires TransitionsKeyed(t) && u.transitions == t.transitions
    ensures TransitionsKeyed(u)
  {
  }

  /** No call breaks a primary key, a unique column or a check of the tables. */
  lemma KeysKept(l: Ledger, c: Call)
    requires Keyed(l.tables)
    ensures Keyed(Perform(l, c).0.tables)
  {
    hide Keyed, Accepted, SnapshotOf, Snapshots, EventsOf, NextSeq, LoadMachine, TakeStep, PersistStep, PersistDispatch,
         InsertEvent, Register, ValidEvent, ValidAttemptId, ValidEvidenceId;
    var t := l.tables;
    match c {
      case AppendCall(e) => if InsertEvent(t, e).Ok? { InsertEventKeyed(t, e); }
      case RegisterCall(id, tick) => if Register(t, id, tick).Ok? { RegisterKeyed(t, id, tick); }
      case TransitionCall(a, target, e, candidate, tick) =>
        if LoadMachine(t, a).Ok? {
          var m := LoadMachine(t, a).value.0;
          var s := TakeStep(m, target, e, candidate, None);
          if PersistStep(t, m.identity, candidate, s.record, e, tick).Ok? {
            PersistStepKeyed(t, m.identity, candidate, s.record, e, tick);
          }
        }
      case DispatchCall(a, x, e, candidate, tick) =>
        if LoadMachine(t, a).Ok? {
          var m := LoadMachine(t, a).value.0;
          var s := TakeStep(m, InFlight, e, candidate, Some(x));
          if PersistStep(t, m.identity, candidate, s.record, e, tick).Ok? {
            PersistStepKeyed(t, m.identity, candidate, s.record, e, tick);
          }
          if PersistDispatch(t, l.runId, s.machine, x, candidate, s.record, e, tick).Ok? {
            DispatchKeyed(t, l.runId, s.machine, x, candidate, s.record, e, tick);
          }
        }
      case _ =>
    }
  }

  /** Every reachable ledger's tables satisfy their keys. */
  lemma {:induction false} ReachableKeyed(runId: string, calls: seq<Call>)
    ensures Keyed(Run(Create(runId), calls).0.tables)
  {
    if |calls| > 0 {
      hide Perform, Keyed;
      ReachableKeyed(runId, calls[..|calls| - 1]);
      KeysKept(Run(Create(runId), calls[..|calls| - 1]).0, calls[|calls| - 1]);
    }
  }

  // ---------- Append-only ----------

  /** Rows are only added: events, transitions and attempts keep theirs as they are, and
      operations keep identity and creation, whatever becomes of their cached columns. */
  predicate Extends(t: Tables, u: Tables) {
    && u.metadata == t.metadata
    && t.events <= u.events && t.transitions <= u.transitions && t.attempts <= u.attempts
    && |t.operations| <= |u.operations|
    && forall i | 0 <= i < |t.operations| ::
         u.operations[i].identity == t.operations[i].identity
           && u.operations[i].createdSeq == t.operations[i].createdSeq
  }

  lemma ExtendsItself(t: Tables)
    ensures Extends(t, t)
  {
  }

  lemma ExtendsOn(t: Tables, u: Tables, w: Tables)
    requires Extends(t, u) && Extends(u, w)
    ensures Extends(t, w)
  {
  }

  lemma EventExtends(t: Tables, e: Event)
    requires InsertEvent(t, e).Ok?
    ensures Extends(t, InsertEvent(t, e).value)
  {
    hide RowOfEvent, NextSeq, LatestEvent, ValidEvent, HasEvent;
  }

  lemma LogStepExtends(t: Tables, id: Identity, r: Record, e: Evidence, tick: nat)
    requires LogStep(t, id, r, e, tick).Ok?
    ensures Extends(t, LogStep(t, id, r, e, tick).value.0)
  {
    hide InsertEvent, Extends, TransitionFacts, NextSeq;
    ExtendsItself(t);
    var prepared := Event(NextSeq(t), tick, OperationPrepared, IdentityLinks(id, None), map[]);
    if SuccessfullyPrepared(r) {
      EventExtends(t, prepared);
    }
    var before := if SuccessfullyPrepared(r) then InsertEvent(t, prepared).value else t;
    var event := Event(NextSeq(before), tick, StateTransition, IdentityLinks(id, r.attemptId), TransitionFacts(r, e));
    EventExtends(before, event);
    ExtendsOn(t, before, InsertEvent(before, event).value);
  }

  lemma StoreStepExtends(t: Tables, id: Identity, candidate: Identity, r: Record, e: Evidence, eventSeq: int)
    requires StoreStep(t, id, candidate, r, e, eventSeq).Ok?
    ensures Extends(t, StoreStep(t, id, candidate, r, e, eventSeq).value)
  {
    hide NextOrdinal, HasEvent, HasOperation;
  }

  lemma PersistStepExtends(t: Tables, id: Identity, candidate: Identity, r: Record, e: Evidence, tick: nat)
    requires PersistStep(t, id, candidate, r, e, tick).Ok?
    ensures Extends(t, PersistStep(t, id, candidate, r, e, tick).value.0)
  {
    hide Extends, LogStep, StoreStep;
    LogStepExtends(t, id, r, e, tick);
    var (logged, n) := LogStep(t, id, r, e, tick).value;
    StoreStepExtends(logged, id, candidate, r, e, n);
    ExtendsOn(t, logged, StoreStep(logged, id, candidate, r, e, n).value);
  }

  lemma AttemptExtends(t: Tables, row: AttemptRow)
    requires InsertAttemptRow(t, row).Ok?
    ensures Extends(t, InsertAttemptRow(t, row).value)
  {
    hide HasEvent, HasOperation;
  }

  lemma DispatchExtends(
    t: Tables, runId: string, m: Machine, x: string, candidate: Identity, r: Record, e: Evidence, tick: nat)
    requires PersistDispatch(t, runId, m, x, candidate, r, e, tick).Ok?
    ensures Extends(t, PersistDispatch(t, runId, m, x, candidate, r, e, tick).value.0)
  {
    hide Extends, PersistStep, InsertEvent, InsertAttemptRow, NextSeq;
    var event := Event(NextSeq(t), tick, AttemptDispatched, IdentityLinks(m.identity, Some(x)), map[]);
    EventExtends(t, event);
    var dispatched := InsertEvent(t, event).value;
    PersistStepExtends(dispatched, m.identity, candidate, r, e, tick);
    var (stored, p) := PersistStep(dispatched, m.identity, candidate, r, e, tick).value;
    var row := AttemptRow(x, m.identity.actionId, |m.attemptIds|, NextSeq(t), p.eventSeq);
    AttemptExtends(stored, row);
    ExtendsOn(t, dispatched, stored);
    ExtendsOn(t, stored, InsertAttemptRow(stored, row).value);
  }

  lemma RegisterExtends(t: Tables, id: Identity, tick: nat)
    requires Register(t, id, tick).Ok?
    ensures Extends(t, Register(t, id, tick).value.0)
  {
    hide InsertEvent, NextSeq, SnapshotOf, HasEvent, HasOperation;
    EventExtends(t, Event(NextSeq(t), tick, ActionProposed, IdentityLinks(id, None), map[]));
  }

  /** Every call on any tables is append-only. */
  lemma CallExtends(l: Ledger, c: Call)
    ensures Extends(l.tables, Perform(l, c).0.tables)
  {
    hide Extends, Accepted, SnapshotOf, Snapshots, EventsOf, NextSeq, LoadMachine, TakeStep, PersistStep,
         PersistDispatch, InsertEvent, Register, ValidEvent, ValidAttemptId, ValidEvidenceId;
    var t := l.tables;
    ExtendsItself(t);
    match c {
      case AppendCall(e) => if InsertEvent(t, e).Ok? { EventExtends(t, e); }
      case RegisterCall(id, tick) => if Register(t, id, tick).Ok? { RegisterExtends(t, id, tick); }
      case TransitionCall(a, target, e, candidate, tick) =>
        if LoadMachine(t, a).Ok? {
          var m := LoadMachine(t, a).value.0;
          var s := TakeStep(m, target, e, candidate, None);
          if PersistStep(t, m.identity, candidate, s.record, e, tick).Ok? {
            PersistStepExtends(t, m.identity, candidate, s.record, e, tick);
          }
        }
      case DispatchCall(a, x, e, candidate, tick) =>
        if LoadMachine(t, a).Ok? {
          var m := LoadMachine(t, a).value.0;
          var s := TakeStep(m, InFlight, e, candidate, Some(x));
          if PersistStep(t, m.identity, candidate, s.record, e, tick).Ok? {
            PersistStepExtends(t, m.identity, candidate, s.record, e, tick);
          }
          if PersistDispatch(t, l.runId, s.machine, x, candidate, s.record, e, tick).Ok? {
            DispatchExtends(t, l.runId, s.machine, x, candidate, s.record, e, tick);
          }
        }
      case _ =>
    }
  }

  /** And so is every run of calls, between any two of its moments. */
  lemma {:induction false} RunExtends(l: Ledger, calls: seq<Call>, n: nat)
    requires n <= |calls|
    ensures Extends(Run(l, calls[..n]).0.tables, Run(l, calls).0.tables)
    decreases |calls|
  {
    hide Extends, Perform;
    if n == |calls| {
      assert calls[..n] == calls;
      ExtendsItself(Run(l, calls).0.tables);
    } else {
      var k := |calls| - 1;
      RunExtends(l, calls[..k], n);
      assert calls[..k][..n] == calls[..n];
      var before := Run(l, calls[..k]).0;
      CallExtends(before, calls[k]);
      ExtendsOn(Run(l, calls[..n]).0.tables, before.tables, Run(l, calls).0.tables);
    }
  }
}
