/** What the calls write into the tables, read off the rows: every table is stored in the
    order of the log, and links, facts and attempt ids are those of the calls. */
module WrittenTables {
  import opened Wrappers
  import opened StateMachine
  import opened Contracts
  import opened LedgerTables
  import opened LedgerCalls
  import opened LedgerProtocol
  import opened LiveReachability
  import CanonicalJson
  import Sql

  predicate EventsInOrder(t: Tables) {
    forall i, j | 0 <= i < j < |t.events| :: t.events[i].seqNo < t.events[j].seqNo
  }

  predicate OperationsInOrder(t: Tables) {
    forall i, j | 0 <= i < j < |t.operations| :: t.operations[i].createdSeq < t.operations[j].createdSeq
  }

  predicate TransitionsInOrder(t: Tables) {
    forall i, j | 0 <= i < j < |t.transitions| :: t.transitions[i].eventSeq < t.transitions[j].eventSeq
  }

  predicate AttemptsInOrder(t: Tables) {
    forall i, j | 0 <= i < j < |t.attempts| :: t.attempts[i].dispatchSeq < t.attempts[j].dispatchSeq
  }

  /** Each table is stored in the order of its rows' events. */
  predicate StoredInOrder(t: Tables) {
    EventsInOrder(t) && OperationsInOrder(t) && TransitionsInOrder(t) && AttemptsInOrder(t)
  }

  /** Managed events link to an identity and an attempt, and to nothing else. */
  predicate ManagedRowsPlain(t: Tables) {
    forall i | 0 <= i < |t.events| :: Managed(t.events[i].kind) ==> PlainLinks(t.events[i].links)
  }

  /** An attempt id is recorded exactly with an attempted entry into IN_FLIGHT. */
  predicate IdsWithDispatches(t: Tables) {
    forall i | 0 <= i < |t.transitions| :: IdFits(RecordOfRow(t.transitions[i]))
  }

  // ---------- What one insert keeps ----------

  /** Everything stored refers to events before the next one. */
  predicate BelowNext(t: Tables) {
    && (forall i | 0 <= i < |t.events| :: t.events[i].seqNo < NextSeq(t))
    && (forall i | 0 <= i < |t.operations| :: t.operations[i].createdSeq < NextSeq(t))
    && (forall i | 0 <= i < |t.transitions| :: t.transitions[i].eventSeq < NextSeq(t))
    && (forall i | 0 <= i < |t.attempts| :: t.attempts[i].dispatchSeq < NextSeq(t))
  }

  predicate Tidy(t: Tables) {
    StoredInOrder(t) && ManagedRowsPlain(t) && IdsWithDispatches(t) && BelowNext(t)
  }

  lemma InsertedNext(t: Tables, e: Event)
    requires InsertEvent(t, e).Ok?
    ensures var u := InsertEvent(t, e).value;
            && u == t.(events := t.events + [RowOfEvent(e)])
            && e.seqNo == NextSeq(t) && NextSeq(u) == NextSeq(t) + 1
  {
    hide ValidEvent, HasEvent, CanonicalJson.Print;
    var row := RowOfEvent(e);
    assert (t.events + [row])[..|t.events|] == t.events;
    var sorted := OrderedEvents(t);
    assert OrderedEvents(t.(events := t.events + [row])) == sorted + [row];
  }

  lemma InsertKeepsTidy(t: Tables, e: Event)
    requires Tidy(t) && InsertEvent(t, e).Ok? && (Managed(e.kind) ==> PlainLinks(e.links))
    ensures Tidy(InsertEvent(t, e).value) && NextSeq(InsertEvent(t, e).value) == NextSeq(t) + 1 && e.seqNo == NextSeq(t)
    ensures InsertEvent(t, e).value == t.(events := InsertEvent(t, e).value.events)
  {
    hide InsertEvent, NextSeq, PlainLinks, IdFits, CanonicalJson.Print;
    InsertedNext(t, e);
  }

  lemma LifecycleKeepsTidy(
    t: Tables, tick: nat, kind: EventKind, id: Identity, attemptId: Option<string>,
    facts: map<string, CanonicalJson.Json>)
    requires Tidy(t) && InsertLifecycleEvent(t, tick, kind, id, attemptId, facts).Ok?
    ensures var u := InsertLifecycleEvent(t, tick, kind, id, attemptId, facts).value;
            Tidy(u) && NextSeq(u) == NextSeq(t) + 1 && u == t.(events := u.events)
  {
    hide Tidy, InsertEvent, NextSeq;
    InsertKeepsTidy(t, Event(NextSeq(t), tick, kind, IdentityLinks(id, attemptId), facts));
  }

  lemma LogStepKeepsTidy(t: Tables, id: Identity, r: Record, e: Evidence, tick: nat)
    requires Tidy(t) && LogStep(t, id, r, e, tick).Ok?
    ensures var (u, n) := LogStep(t, id, r, e, tick).value;
            Tidy(u) && NextSeq(t) <= n && NextSeq(u) == n + 1 && u == t.(events := u.events)
            && forall i | 0 <= i < |u.transitions| :: u.transitions[i].eventSeq < n
  {
    hide Tidy, InsertLifecycleEvent, NextSeq, TransitionFacts, SuccessfullyPrepared;
    var prepared := t;
    if SuccessfullyPrepared(r) {
      LifecycleKeepsTidy(t, tick, OperationPrepared, id, None, map[]);
      prepared := InsertLifecycleEvent(t, tick, OperationPrepared, id, None, map[]).value;
    }
    LifecycleKeepsTidy(prepared, tick, StateTransition, id, r.attemptId, TransitionFacts(r, e));
    TidyBelow(prepared);
  }

  lemma TidyBelow(t: Tables)
    requires Tidy(t)
    ensures forall i | 0 <= i < |t.transitions| :: t.transitions[i].eventSeq < NextSeq(t)
  {
    hide NextSeq, StoredInOrder, ManagedRowsPlain, IdsWithDispatches;
  }

  lemma StoreStepKeepsTidy(
    t: Tables, id: Identity, candidate: Identity, r: Record, e: Evidence, eventSeq: int)
    requires Tidy(t) && IdFits(r) && eventSeq + 1 == NextSeq(t)
    requires forall i | 0 <= i < |t.transitions| :: t.transitions[i].eventSeq < eventSeq
    requires StoreStep(t, id, candidate, r, e, eventSeq).Ok?
    ensures var u := StoreStep(t, id, candidate, r, e, eventSeq).value;
            Tidy(u) && NextSeq(u) == NextSeq(t) && u.attempts == t.attempts
  {
    hide NextOrdinal, HasOperation, HasEvent, PlainLinks, Sql.OrderBy;
    var u := StoreStep(t, id, candidate, r, e, eventSeq).value;
    assert NextSeq(u) == NextSeq(t) by { SameNext(t, u); }
    hide NextSeq;
  }

  lemma SameNext(t: Tables, u: Tables)
    requires u.events == t.events
    ensures NextSeq(u) == NextSeq(t)
  {
  }

  lemma PersistKeepsTidy(t: Tables, id: Identity, candidate: Identity, r: Record, e: Evidence, tick: nat)
    requires Tidy(t) && IdFits(r) && PersistStep(t, id, candidate, r, e, tick).Ok?
    ensures var u := PersistStep(t, id, candidate, r, e, tick).value.0;
            Tidy(u) && NextSeq(u) > NextSeq(t) && u.attempts == t.attempts
  {
    hide Tidy, LogStep, StoreStep, NextSeq, IdFits;
    LogStepKeepsTidy(t, id, r, e, tick);
    var (logged, n) := LogStep(t, id, r, e, tick).value;
    StoreStepKeepsTidy(logged, id, candidate, r, e, n);
  }

  lemma DispatchKeepsTidy(
    t: Tables, runId: string, m: Machine, x: string, candidate: Identity, r: Record, e: Evidence, tick: nat)
    requires Tidy(t) && IdFits(r) && PersistDispatch(t, runId, m, x, candidate, r, e, tick).Ok?
    ensures Tidy(PersistDispatch(t, runId, m, x, candidate, r, e, tick).value.0)
  {
    hide Tidy, InsertLifecycleEvent, PersistStep, NextSeq, IdFits, InsertAttemptRow;
    LifecycleKeepsTidy(t, tick, AttemptDispatched, m.identity, Some(x), map[]);
    var dispatched := InsertLifecycleEvent(t, tick, AttemptDispatched, m.identity, Some(x), map[]).value;
    PersistKeepsTidy(dispatched, m.identity, candidate, r, e, tick);
    var (stored, p) := PersistStep(dispatched, m.identity, candidate, r, e, tick).value;
    TidyAttempts(t);
    AttemptKeepsTidy(stored, AttemptRow(x, m.identity.actionId, |m.attemptIds|, NextSeq(t), p.eventSeq));
  }

  lemma TidyAttempts(t: Tables)
    requires Tidy(t)
    ensures forall i | 0 <= i < |t.attempts| :: t.attempts[i].dispatchSeq < NextSeq(t)
  {
    hide NextSeq, StoredInOrder, ManagedRowsPlain, IdsWithDispatches;
  }

  lemma AttemptKeepsTidy(t: Tables, row: AttemptRow)
    requires Tidy(t) && row.dispatchSeq < NextSeq(t) && InsertAttemptRow(t, row).Ok?
    requires forall i | 0 <= i < |t.attempts| :: t.attempts[i].dispatchSeq < row.dispatchSeq
    ensures Tidy(InsertAttemptRow(t, row).value)
  {
    hide HasOperation, HasEvent, PlainLinks, IdFits;
    SameNext(t, InsertAttemptRow(t, row).value);
    hide NextSeq;
  }

  lemma RegisterKeepsTidy(t: Tables, id: Identity, tick: nat)
    requires Tidy(t) && Register(t, id, tick).Ok?
    ensures Tidy(Register(t, id, tick).value.0)
  {
    hide Tidy, InsertLifecycleEvent, NextSeq, SnapshotOf, HasOperation, InsertOperationRow;
    LifecycleKeepsTidy(t, tick, ActionProposed, id, None, map[]);
    var logged := InsertLifecycleEvent(t, tick, ActionProposed, id, None, map[]).value;
    TidyOperations(t);
    OperationKeepsTidy(logged, OperationRow(id, Proposed, NextSeq(t), NextSeq(t)));
  }

  lemma TidyOperations(t: Tables)
    requires Tidy(t)
    ensures forall i | 0 <= i < |t.operations| :: t.operations[i].createdSeq < NextSeq(t)
  {
    hide NextSeq, StoredInOrder, ManagedRowsPlain, IdsWithDispatches;
  }

  lemma OperationKeepsTidy(t: Tables, row: OperationRow)
    requires Tidy(t) && row.createdSeq < NextSeq(t) && InsertOperationRow(t, row).Ok?
    requires forall i | 0 <= i < |t.operations| :: t.operations[i].createdSeq < row.createdSeq
    ensures Tidy(InsertOperationRow(t, row).value)
  {
    hide HasOperation, HasEvent, PlainLinks, IdFits;
    SameNext(t, InsertOperationRow(t, row).value);
    hide NextSeq;
  }

  // ---------- What every call keeps ----------

  /** What a call without attempt id, or one into IN_FLIGHT with a valid one, records. */
  lemma RecordedId(m: Machine, target: State, e: Evidence, candidate: Identity, attemptId: Option<string>)
    requires if attemptId.Some? then target == InFlight && ValidAttemptId(attemptId.value) else target != InFlight
    ensures IdFits(TakeStep(m, target, e, candidate, attemptId).record)
  {
    hide TakeStep, ValidAttemptId;
    RecordKeepsInputs(m, target, e, candidate, attemptId);
  }

  lemma TransitionKeepsTidy(t: Tables, a: string, target: State, e: Evidence, candidate: Identity, tick: nat)
    requires Tidy(t)
    ensures Tidy(Transition(t, a, target, e, candidate, tick).0)
  {
    hide Tidy, LoadMachine, TakeStep, PersistStep, ValidEvidenceId, IdFits;
    if LoadMachine(t, a).Ok? && target != InFlight {
      var m := LoadMachine(t, a).value.0;
      RecordedId(m, target, e, candidate, None);
      var r := TakeStep(m, target, e, candidate, None).record;
      if PersistStep(t, m.identity, candidate, r, e, tick).Ok? {
        PersistKeepsTidy(t, m.identity, candidate, r, e, tick);
      }
    }
  }

  lemma DispatchCallKeepsTidy(
    t: Tables, runId: string, a: string, x: string, e: Evidence, candidate: Identity, tick: nat)
    requires Tidy(t)
    ensures Tidy(Dispatch(t, runId, a, x, e, candidate, tick).0)
  {
    hide Tidy, LoadMachine, TakeStep, PersistStep, PersistDispatch, ValidEvidenceId, ValidAttemptId, IdFits;
    if LoadMachine(t, a).Ok? && ValidAttemptId(x) {
      var m := LoadMachine(t, a).value.0;
      RecordedId(m, InFlight, e, candidate, Some(x));
      var s := TakeStep(m, InFlight, e, candidate, Some(x));
      if PersistStep(t, m.identity, candidate, s.record, e, tick).Ok? {
        PersistKeepsTidy(t, m.identity, candidate, s.record, e, tick);
      }
      if PersistDispatch(t, runId, s.machine, x, candidate, s.record, e, tick).Ok? {
        DispatchKeepsTidy(t, runId, s.machine, x, candidate, s.record, e, tick);
      }
    }
  }

  /** Every call, on any tables at all, keeps them tidy. */
  lemma CallKeepsTidy(l: Ledger, c: Call)
    requires Tidy(l.tables)
    ensures Tidy(Perform(l, c).0.tables)
  {
    hide Tidy, LedgerChecker.Accepted, SnapshotOf, Snapshots, EventsOf, NextSeq, Register, Transition, Dispatch,
         InsertEvent, ValidEvent, PlainLinks;
    var t := l.tables;
    match c {
      case AppendCall(e) => if Append(t, e).Ok? { InsertKeepsTidy(t, e); }
      case RegisterCall(id, tick) => if Register(t, id, tick).Ok? { RegisterKeepsTidy(t, id, tick); }
      case TransitionCall(a, target, e, candidate, tick) => TransitionKeepsTidy(t, a, target, e, candidate, tick);
      case DispatchCall(a, x, e, candidate, tick) => DispatchCallKeepsTidy(t, l.runId, a, x, e, candidate, tick);
      case _ =>
    }
  }

  /** So every reachable ledger stores its tables in order, with plain links on managed
      events and attempt ids exactly where a dispatch was attempted. */
  lemma {:induction false} ReachableTidy(runId: string, calls: seq<Call>)
    ensures Tidy(Run(Create(runId), calls).0.tables)
  {
    if |calls| > 0 {
      hide Perform, Tidy;
      ReachableTidy(runId, calls[..|calls| - 1]);
      CallKeepsTidy(Run(Create(runId), calls[..|calls| - 1]).0, calls[|calls| - 1]);
    }
  }
}
