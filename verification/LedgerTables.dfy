/** The five tables of a run's ledger, the constraints SQLite enforces on each
    insert, and the encoding of events as rows. */
module LedgerTables {
  import opened Wrappers
  import opened CanonicalJson
  import opened StateMachine
  import opened Contracts
  import opened Sql
  import Text

  const LEDGER_SCHEMA_VERSION := 1
  const CONTRACT_SCHEMA_VERSION := "0.1"

  datatype MetadataRow = MetadataRow(ledgerVersion: int, contractVersion: string, runId: string)

  datatype EventRow = EventRow(seqNo: int, tick: int, kind: EventKind, links: Links, evidenceJson: string)

  datatype OperationRow = OperationRow(identity: Identity, state: State, createdSeq: int, updatedSeq: int)

  /** `evidence` holds the columns evidence_id, cause and the five flags. */
  datatype TransitionRow = TransitionRow(
    actionId: string,
    ordinal: int,
    eventSeq: int,
    source: State,
    attempted: State,
    resulting: State,
    candidate: Identity,
    evidence: Evidence,
    attemptId: Option<string>,
    violationReason: Option<string>)

  datatype AttemptRow = AttemptRow(
    attemptId: string,
    actionId: string,
    ordinal: int,
    dispatchSeq: int,
    transitionSeq: int)

  datatype Tables = Tables(
    metadata: seq<MetadataRow>,
    events: seq<EventRow>,
    operations: seq<OperationRow>,
    transitions: seq<TransitionRow>,
    attempts: seq<AttemptRow>)

  function FreshTables(runId: string): Tables {
    Tables([MetadataRow(LEDGER_SCHEMA_VERSION, CONTRACT_SCHEMA_VERSION, runId)], [], [], [], [])
  }

  datatype LedgerError =
    | ClosedLedger
    | InvalidArgument
    | ManagedEvent
    | EventSequence
    | DuplicateOperation
    | OperationNotFound
    | DispatchRequired
    | Integrity
    | SqliteConstraint
    | InvalidTransition(record: Record)

  // ---------- Keys and references ----------

  predicate HasEvent(t: Tables, n: int) {
    exists i | 0 <= i < |t.events| :: t.events[i].seqNo == n
  }

  predicate HasOperation(t: Tables, a: string) {
    exists i | 0 <= i < |t.operations| :: t.operations[i].identity.actionId == a
  }

  predicate EventsKeyed(t: Tables) {
    && (forall i | 0 <= i < |t.events| :: t.events[i].seqNo > 0 && t.events[i].tick >= 0)
    && (forall i, j | 0 <= i < j < |t.events| :: t.events[i].seqNo != t.events[j].seqNo)
  }

  predicate OperationsKeyed(t: Tables) {
    forall i, j | 0 <= i < j < |t.operations| ::
      t.operations[i].identity.actionId != t.operations[j].identity.actionId
  }

  predicate TransitionsKeyed(t: Tables) {
    && (forall i | 0 <= i < |t.transitions| :: t.transitions[i].ordinal > 0)
    && (forall i, j | 0 <= i < j < |t.transitions| ::
          && t.transitions[i].eventSeq != t.transitions[j].eventSeq
          && (t.transitions[i].actionId != t.transitions[j].actionId
              || t.transitions[i].ordinal != t.transitions[j].ordinal))
  }

  predicate AttemptsKeyed(t: Tables) {
    && (forall i | 0 <= i < |t.attempts| :: t.attempts[i].ordinal > 0)
    && (forall i, j | 0 <= i < j < |t.attempts| ::
          && t.attempts[i].attemptId != t.attempts[j].attemptId
          && t.attempts[i].dispatchSeq != t.attempts[j].dispatchSeq
          && t.attempts[i].transitionSeq != t.attempts[j].transitionSeq
          && (t.attempts[i].actionId != t.attempts[j].actionId || t.attempts[i].ordinal != t.attempts[j].ordinal))
  }

  /** The CHECK, PRIMARY KEY and UNIQUE constraints hold, as SQLite keeps them. */
  predicate Keyed(t: Tables) {
    EventsKeyed(t) && OperationsKeyed(t) && TransitionsKeyed(t) && AttemptsKeyed(t)
  }

  /** `PRAGMA foreign_key_check` reports nothing. */
  predicate ForeignKeysHold(t: Tables) {
    && (forall i | 0 <= i < |t.operations| ::
        HasEvent(t, t.operations[i].createdSeq) && HasEvent(t, t.operations[i].updatedSeq))
    && (forall i | 0 <= i < |t.transitions| ::
        HasOperation(t, t.transitions[i].actionId) && HasEvent(t, t.transitions[i].eventSeq))
    && (forall i | 0 <= i < |t.attempts| ::
          && HasOperation(t, t.attempts[i].actionId)
          && HasEvent(t, t.attempts[i].dispatchSeq) && HasEvent(t, t.attempts[i].transitionSeq))
  }

  // ---------- Inserts that SQLite may refuse ----------

  function InsertOperationRow(t: Tables, row: OperationRow): Result<Tables, LedgerError> {
    if HasOperation(t, row.identity.actionId) || !HasEvent(t, row.createdSeq) || !HasEvent(t, row.updatedSeq) then
      Err(SqliteConstraint)
    else Ok(t.(operations := t.operations + [row]))
  }

  function InsertTransitionRow(t: Tables, row: TransitionRow): Result<Tables, LedgerError> {
    if || row.ordinal <= 0 || !HasOperation(t, row.actionId) || !HasEvent(t, row.eventSeq)
       || exists i | 0 <= i < |t.transitions| ::
            || t.transitions[i].eventSeq == row.eventSeq
            || (t.transitions[i].actionId == row.actionId && t.transitions[i].ordinal == row.ordinal)
    then Err(SqliteConstraint)
    else Ok(t.(transitions := t.transitions + [row]))
  }

  function InsertAttemptRow(t: Tables, row: AttemptRow): Result<Tables, LedgerError> {
    if || row.ordinal <= 0 || !HasOperation(t, row.actionId)
       || !HasEvent(t, row.dispatchSeq) || !HasEvent(t, row.transitionSeq)
       || exists i | 0 <= i < |t.attempts| ::
            || t.attempts[i].attemptId == row.attemptId
            || t.attempts[i].dispatchSeq == row.dispatchSeq
            || t.attempts[i].transitionSeq == row.transitionSeq
            || (t.attempts[i].actionId == row.actionId && t.attempts[i].ordinal == row.ordinal)
    then Err(SqliteConstraint)
    else Ok(t.(attempts := t.attempts + [row]))
  }

  /** UPDATE operations SET state, updated_event_seq WHERE action_id = a. */
  function UpdateOperation(rows: seq<OperationRow>, a: string, state: State, updatedSeq: int): seq<OperationRow> {
    seq(|rows|, i requires 0 <= i < |rows| =>
      if rows[i].identity.actionId == a then rows[i].(state := state, updatedSeq := updatedSeq) else rows[i])
  }

  // ---------- Selections ----------

  predicate EventBefore(x: EventRow, y: EventRow) {
    x.seqNo < y.seqNo
  }

  predicate OperationBefore(x: OperationRow, y: OperationRow) {
    x.createdSeq < y.createdSeq
    || (x.createdSeq == y.createdSeq && Text.Less(x.identity.actionId, y.identity.actionId))
  }

  predicate TransitionBefore(x: TransitionRow, y: TransitionRow) {
    x.ordinal < y.ordinal || (x.ordinal == y.ordinal && x.eventSeq < y.eventSeq)
  }

  predicate AttemptBefore(x: AttemptRow, y: AttemptRow) {
    x.ordinal < y.ordinal || (x.ordinal == y.ordinal && Text.Less(x.attemptId, y.attemptId))
  }

  function OrderedEvents(t: Tables): seq<EventRow> {
    OrderBy(t.events, EventBefore)
  }

  function OrderedOperations(t: Tables): seq<OperationRow> {
    OrderBy(t.operations, OperationBefore)
  }

  function TransitionsWhere(rows: seq<TransitionRow>, a: string): seq<TransitionRow> {
    if |rows| == 0 then []
    else TransitionsWhere(rows[..|rows| - 1], a)
         + if rows[|rows| - 1].actionId == a then [rows[|rows| - 1]] else []
  }

  function AttemptsWhere(rows: seq<AttemptRow>, a: string): seq<AttemptRow> {
    if |rows| == 0 then []
    else AttemptsWhere(rows[..|rows| - 1], a)
         + if rows[|rows| - 1].actionId == a then [rows[|rows| - 1]] else []
  }

  function TransitionsOf(t: Tables, a: string): seq<TransitionRow> {
    OrderBy(TransitionsWhere(t.transitions, a), TransitionBefore)
  }

  function AttemptsOf(t: Tables, a: string): seq<AttemptRow> {
    OrderBy(AttemptsWhere(t.attempts, a), AttemptBefore)
  }

  function FindOperation(rows: seq<OperationRow>, a: string): Option<OperationRow> {
    if |rows| == 0 then None
    else if rows[0].identity.actionId == a then Some(rows[0])
    else FindOperation(rows[1..], a)
  }

  lemma {:induction false} TransitionsWhereMembers(rows: seq<TransitionRow>, a: string)
    ensures forall r :: r in TransitionsWhere(rows, a) <==> r in rows && r.actionId == a
  {
    if |rows| > 0 {
      TransitionsWhereMembers(rows[..|rows| - 1], a);
      assert rows == rows[..|rows| - 1] + [rows[|rows| - 1]];
    }
  }

  lemma {:induction false} AttemptsWhereMembers(rows: seq<AttemptRow>, a: string)
    ensures forall r :: r in AttemptsWhere(rows, a) <==> r in rows && r.actionId == a
  {
    if |rows| > 0 {
      AttemptsWhereMembers(rows[..|rows| - 1], a);
      assert rows == rows[..|rows| - 1] + [rows[|rows| - 1]];
    }
  }

  lemma TransitionsOfMembers(t: Tables, a: string)
    ensures forall r :: r in TransitionsOf(t, a) <==> r in t.transitions && r.actionId == a
  {
    OrderByMembers(TransitionsWhere(t.transitions, a), TransitionBefore);
    TransitionsWhereMembers(t.transitions, a);
  }

  lemma AttemptsOfMembers(t: Tables, a: string)
    ensures forall r :: r in AttemptsOf(t, a) <==> r in t.attempts && r.actionId == a
  {
    OrderByMembers(AttemptsWhere(t.attempts, a), AttemptBefore);
    AttemptsWhereMembers(t.attempts, a);
  }

  lemma {:induction false} FindOperationSound(rows: seq<OperationRow>, a: string)
    ensures FindOperation(rows, a).None? ==> forall r | r in rows :: r.identity.actionId != a
    ensures FindOperation(rows, a).Some? ==>
              FindOperation(rows, a).value in rows && FindOperation(rows, a).value.identity.actionId == a
  {
    if |rows| > 0 && rows[0].identity.actionId != a {
      FindOperationSound(rows[1..], a);
      assert rows == [rows[0]] + rows[1..];
    }
  }

  /** With keys unique, the lookup finds the row that has the key. */
  lemma FindOperationKeyed(t: Tables, row: OperationRow)
    requires OperationsKeyed(t) && row in t.operations
    ensures FindOperation(t.operations, row.identity.actionId) == Some(row)
  {
    FindOperationSound(t.operations, row.identity.actionId);
  }

  // ---------- Events as rows ----------

  function RowOfEvent(e: Event): EventRow {
    EventRow(e.seqNo, e.tick, e.kind, e.links, Print(Obj(e.evidence)))
  }

  function EventFromRow(row: EventRow): Result<Event, LedgerError> {
    match Loads(row.evidenceJson)
    case Some(Obj(m)) =>
      var e := Event(row.seqNo, row.tick, row.kind, row.links, m);
      if ValidEvent(e) && row.evidenceJson == Print(Obj(m)) then Ok(e) else Err(Integrity)
    case _ => Err(Integrity)
  }

  /** Reading inverts writing: a row reads as an event exactly when the event is valid
      and the row is the one written for it. So a written row never trips the
      non-canonical check, and no other row passes it. */
  lemma EventRowExact(row: EventRow, e: Event)
    ensures EventFromRow(row) == Ok(e) <==> ValidEvent(e) && row == RowOfEvent(e)
  {
    RoundTrip(Obj(e.evidence));
  }
}
