/** What each ledger call does to the stored tables, on any tables at all. A call holds
    no live machine: it replays the stored rows, takes one step and writes the linked
    rows, or leaves the tables as they were. */
module LedgerCalls {
  import opened Wrappers
  import opened StateMachine
  import opened Histories
  import opened Contracts
  import opened LedgerTables

  datatype Persisted = Persisted(record: Record, evidence: Evidence, eventSeq: int)

  datatype Snapshot = Snapshot(
    identity: Identity,
    state: State,
    createdSeq: int,
    updatedSeq: int,
    attemptIds: seq<string>,
    history: seq<Persisted>)

  datatype Permit = Permit(runId: string, actionId: string, attemptId: string, dispatchSeq: int, transitionSeq: int)

  // ---------- Appending events ----------

  function LatestEvent(t: Tables): Option<EventRow> {
    var rows := OrderedEvents(t);
    if |rows| == 0 then None else Some(rows[|rows| - 1])
  }

  function NextSeq(t: Tables): int {
    match LatestEvent(t)
    case None => 1
    case Some(row) => row.seqNo + 1
  }

  function InsertEvent(t: Tables, e: Event): Result<Tables, LedgerError> {
    var latest := LatestEvent(t);
    if !ValidEvent(e) then Err(InvalidArgument)
    else if e.seqNo != NextSeq(t) then Err(EventSequence)
    else if latest.Some? && e.tick < latest.value.tick then Err(EventSequence)
    else if HasEvent(t, e.seqNo) then Err(EventSequence)
    else Ok(t.(events := t.events + [RowOfEvent(e)]))
  }

  /** A lifecycle event with the next sequence number. */
  function InsertLifecycleEvent(
    t: Tables, tick: nat, kind: EventKind, id: Identity, attemptId: Option<string>,
    facts: map<string, CanonicalJson.Json>)
    : Result<Tables, LedgerError>
  {
    InsertEvent(t, Event(NextSeq(t), tick, kind, IdentityLinks(id, attemptId), facts))
  }

  // ---------- Replaying the stored history ----------

  function RecordOfRow(row: TransitionRow): Record {
    Record(row.source, row.attempted, row.resulting, row.evidence.evidenceId, row.evidence.cause, row.attemptId,
           row.violationReason)
  }

  function PersistedOfRow(row: TransitionRow): Persisted {
    Persisted(RecordOfRow(row), row.evidence, row.eventSeq)
  }

  /** One stored row, which must be the next by its ordinal, taken again. */
  function ReplayRow(m: Machine, expectedOrdinal: int, row: TransitionRow): Result<Machine, LedgerError> {
    if row.ordinal != expectedOrdinal || !ValidEvidenceId(row.evidence.evidenceId) then Err(Integrity)
    else
      var step := TakeStep(m, row.attempted, row.evidence, row.candidate, row.attemptId);
      if |step.machine.history| != |m.history| + 1 || step.record != RecordOfRow(row) then Err(Integrity)
      else Ok(step.machine)
  }

  function Replay(id: Identity, rows: seq<TransitionRow>): Result<(Machine, seq<Persisted>), LedgerError> {
    if |rows| == 0 then Ok((Fresh(id), []))
    else
      var last := rows[|rows| - 1];
      var (before, persisted) :- Replay(id, rows[..|rows| - 1]);
      var m :- ReplayRow(before, |rows|, last);
      Ok((m, persisted + [PersistedOfRow(last)]))
  }

  function AttemptIds(rows: seq<AttemptRow>): seq<string> {
    seq(|rows|, i requires 0 <= i < |rows| => rows[i].attemptId)
  }

  predicate OrdinalsContiguous(rows: seq<AttemptRow>) {
    forall i | 0 <= i < |rows| :: rows[i].ordinal == i + 1
  }

  function LoadMachine(t: Tables, a: string): Result<(Machine, seq<Persisted>), LedgerError> {
    match FindOperation(t.operations, a)
    case None => Err(OperationNotFound)
    case Some(row) =>
      var (m, persisted) :- Replay(row.identity, TransitionsOf(t, a));
      var attempts := AttemptsOf(t, a);
      if m.state != row.state then Err(Integrity)
      else if exists i | 0 <= i < |attempts| :: !ValidAttemptId(attempts[i].attemptId) then Err(Integrity)
      else if !OrdinalsContiguous(attempts) || AttemptIds(attempts) != m.attemptIds then Err(Integrity)
      else Ok((m, persisted))
  }

  function SnapshotOf(t: Tables, a: string): Result<Snapshot, LedgerError> {
    var (m, persisted) :- LoadMachine(t, a);
    match FindOperation(t.operations, a)
    case None => Err(OperationNotFound)
    case Some(row) => Ok(Snapshot(m.identity, m.state, row.createdSeq, row.updatedSeq, m.attemptIds, persisted))
  }

  function SnapshotsOfRows(t: Tables, rows: seq<OperationRow>): Result<seq<Snapshot>, LedgerError> {
    if |rows| == 0 then Ok([])
    else
      var earlier :- SnapshotsOfRows(t, rows[..|rows| - 1]);
      var last :- SnapshotOf(t, rows[|rows| - 1].identity.actionId);
      Ok(earlier + [last])
  }

  function Snapshots(t: Tables): Result<seq<Snapshot>, LedgerError> {
    SnapshotsOfRows(t, OrderedOperations(t))
  }

  function EventsOfRows(rows: seq<EventRow>): Result<seq<Event>, LedgerError> {
    if |rows| == 0 then Ok([])
    else
      var earlier :- EventsOfRows(rows[..|rows| - 1]);
      var last :- EventFromRow(rows[|rows| - 1]);
      Ok(earlier + [last])
  }

  function EventsOf(t: Tables): Result<seq<Event>, LedgerError> {
    EventsOfRows(OrderedEvents(t))
  }

  // ---------- Writing one step ----------

  predicate SuccessfullyPrepared(r: Record) {
    r.resulting == Prepared && r.violationReason.None?
  }

  function NextOrdinal(t: Tables, a: string): int {
    var rows := TransitionsOf(t, a);
    if |rows| == 0 then 1 else rows[|rows| - 1].ordinal + 1
  }

  function RowOfStep(
    a: string, ordinal: int, eventSeq: int, candidate: Identity, r: Record, e: Evidence): TransitionRow
  {
    TransitionRow(a, ordinal, eventSeq, r.source, r.attempted, r.resulting, candidate,
                  Evidence(r.evidenceId, r.cause, e.isFresh, e.authoritative, e.exactIdentity,
                           e.postconditionVerified, e.cardinalityValid),
                  r.attemptId, r.violationReason)
  }

  /** The events of one step, and the sequence number of its transition event. */
  function LogStep(t: Tables, id: Identity, r: Record, e: Evidence, tick: nat): Result<(Tables, int), LedgerError> {
    var prepared :-
      if SuccessfullyPrepared(r) then InsertLifecycleEvent(t, tick, OperationPrepared, id, None, map[]) else Ok(t);
    var logged :- InsertLifecycleEvent(prepared, tick, StateTransition, id, r.attemptId, TransitionFacts(r, e));
    Ok((logged, NextSeq(prepared)))
  }

  /** The transition row of one step, and the operation row brought up to date. */
  function StoreStep(t: Tables, id: Identity, candidate: Identity, r: Record, e: Evidence, eventSeq: int)
    : Result<Tables, LedgerError>
  {
    var row := RowOfStep(id.actionId, NextOrdinal(t, id.actionId), eventSeq, candidate, r, e);
    var stored :- InsertTransitionRow(t, row);
    Ok(stored.(operations := UpdateOperation(stored.operations, id.actionId, r.resulting, eventSeq)))
  }

  function PersistStep(t: Tables, id: Identity, candidate: Identity, r: Record, e: Evidence, tick: nat)
    : Result<(Tables, Persisted), LedgerError>
  {
    var (logged, eventSeq) :- LogStep(t, id, r, e, tick);
    var stored :- StoreStep(logged, id, candidate, r, e, eventSeq);
    Ok((stored, Persisted(r, e, eventSeq)))
  }

  // ---------- The four write calls ----------

  function Append(t: Tables, e: Event): Result<Tables, LedgerError> {
    if !ValidEvent(e) then Err(InvalidArgument)
    else if Managed(e.kind) then Err(ManagedEvent)
    else InsertEvent(t, e)
  }

  function Register(t: Tables, id: Identity, tick: nat): Result<(Tables, Snapshot), LedgerError> {
    if HasOperation(t, id.actionId) then Err(DuplicateOperation)
    else
      var eventSeq := NextSeq(t);
      var logged :- InsertLifecycleEvent(t, tick, ActionProposed, id, None, map[]);
      var stored :- InsertOperationRow(logged, OperationRow(id, Proposed, eventSeq, eventSeq));
      var snapshot :- SnapshotOf(stored, id.actionId);
      Ok((stored, snapshot))
  }

  /** Tables after a transition call, and what it returns or raises. A step that ends in
      VIOLATION is committed and then raised. */
  function Transition(t: Tables, a: string, target: State, e: Evidence, candidate: Identity, tick: nat)
    : (Tables, Result<Persisted, LedgerError>)
  {
    if !ValidEvidenceId(e.evidenceId) then (t, Err(InvalidArgument))
    else if target == InFlight then (t, Err(DispatchRequired))
    else
      match LoadMachine(t, a)
      case Err(error) => (t, Err(error))
      case Ok((m, _)) =>
        var step := TakeStep(m, target, e, candidate, None);
        if |step.machine.history| == |m.history| then (t, Err(InvalidTransition(step.record)))
        else
          match PersistStep(t, m.identity, candidate, step.record, e, tick)
          case Err(error) => (t, Err(error))
          case Ok((stored, persisted)) =>
            (stored, if step.raised then Err(InvalidTransition(step.record)) else Ok(persisted))
  }

  function PersistDispatch(
    t: Tables, runId: string, m: Machine, attemptId: string, candidate: Identity, r: Record, e: Evidence, tick: nat)
    : Result<(Tables, Permit), LedgerError>
  {
    var dispatchSeq := NextSeq(t);
    var dispatched :- InsertLifecycleEvent(t, tick, AttemptDispatched, m.identity, Some(attemptId), map[]);
    var (stored, persisted) :- PersistStep(dispatched, m.identity, candidate, r, e, tick);
    var row := AttemptRow(attemptId, m.identity.actionId, |m.attemptIds|, dispatchSeq, persisted.eventSeq);
    match InsertAttemptRow(stored, row)
    case Err(_) => Err(Integrity)
    case Ok(final) => Ok((final, Permit(runId, m.identity.actionId, attemptId, dispatchSeq, persisted.eventSeq)))
  }

  function Dispatch(t: Tables, runId: string, a: string, attemptId: string, e: Evidence, candidate: Identity, tick: nat)
    : (Tables, Result<Permit, LedgerError>)
  {
    if !ValidAttemptId(attemptId) || !ValidEvidenceId(e.evidenceId) then (t, Err(InvalidArgument))
    else
      match LoadMachine(t, a)
      case Err(error) => (t, Err(error))
      case Ok((m, _)) =>
        var step := TakeStep(m, InFlight, e, candidate, Some(attemptId));
        if |step.machine.history| == |m.history| then (t, Err(InvalidTransition(step.record)))
        else if step.raised then
          match PersistStep(t, m.identity, candidate, step.record, e, tick)
          case Err(error) => (t, Err(error))
          case Ok((stored, _)) => (stored, Err(InvalidTransition(step.record)))
        else
          match PersistDispatch(t, runId, step.machine, attemptId, candidate, step.record, e, tick)
          case Err(error) => (t, Err(error))
          case Ok((stored, permit)) => (stored, Ok(permit))
  }

  // ---------- Replay accepts exactly the legal histories ----------

  function EntryOfRow(row: TransitionRow): Entry {
    Entry(RecordOfRow(row), row.evidence, row.candidate, row.eventSeq)
  }

  function EntriesOfRows(rows: seq<TransitionRow>): seq<Entry> {
    seq(|rows|, i requires 0 <= i < |rows| => EntryOfRow(rows[i]))
  }

  function PersistedOfRows(rows: seq<TransitionRow>): seq<Persisted> {
    seq(|rows|, i requires 0 <= i < |rows| => PersistedOfRow(rows[i]))
  }

  lemma HistoryGrows(m: Machine, target: State, e: Evidence, candidate: Identity, attemptId: Option<string>)
    ensures |TakeStep(m, target, e, candidate, attemptId).machine.history|
         == |m.history| + if m.state == Violation then 0 else 1
  {
    hide TakeStep;
    SucceedsExactly(m, target, e, candidate, attemptId);
    if TakeStep(m, target, e, candidate, attemptId).raised {
      RaisesExactly(m, target, e, candidate, attemptId);
    }
  }

  lemma ReplayRowExact(m: Machine, expectedOrdinal: int, row: TransitionRow)
    ensures ReplayRow(m, expectedOrdinal, row) ==
              if row.ordinal == expectedOrdinal && Fits(m, EntryOfRow(row))
              then Ok(Replayed(m, EntryOfRow(row)).machine) else Err(Integrity)
  {
    hide TakeStep, ValidEvidenceId;
    HistoryGrows(m, row.attempted, row.evidence, row.candidate, row.attemptId);
  }

  predicate OrdinalsCount(rows: seq<TransitionRow>) {
    forall i | 0 <= i < |rows| :: rows[i].ordinal == i + 1
  }

  lemma OrdinalsStep(rows: seq<TransitionRow>)
    requires |rows| > 0
    ensures OrdinalsCount(rows) <==> OrdinalsCount(rows[..|rows| - 1]) && rows[|rows| - 1].ordinal == |rows|
  {
    var init := rows[..|rows| - 1];
    assert forall i | 0 <= i < |init| :: init[i] == rows[i];
  }

  /** Replaying stored rows succeeds exactly when their ordinals count from one and their
      history is legal, and then yields the machine that history leads to. */
  lemma {:induction false} ReplayExact(id: Identity, rows: seq<TransitionRow>)
    ensures Replay(id, rows) ==
              if OrdinalsCount(rows) && Legal(id, EntriesOfRows(rows))
              then Ok((After(id, EntriesOfRows(rows)), PersistedOfRows(rows))) else Err(Integrity)
  {
    if |rows| == 0 {
      assert PersistedOfRows(rows) == [];
    } else {
      hide Fits, Replayed, ReplayRow, OrdinalsCount, EntryOfRow, PersistedOfRow;
      var n := |rows| - 1;
      var init := rows[..n];
      ReplayExact(id, init);
      assert EntriesOfRows(rows)[..n] == EntriesOfRows(init);
      assert PersistedOfRows(rows) == PersistedOfRows(init) + [PersistedOfRow(rows[n])];
      OrdinalsStep(rows);
      ReplayRowExact(After(id, EntriesOfRows(init)), n + 1, rows[n]);
    }
  }
}
