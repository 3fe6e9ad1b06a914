/** The independent checker run when a ledger is created, reopened or validated, on any
    tables at all, and what its acceptance means. */
module LedgerChecker {
  import opened Wrappers
  import opened CanonicalJson
  import opened StateMachine
  import opened Histories
  import opened Contracts
  import opened LedgerTables
  import opened LedgerCalls

  function EventAt(events: seq<Event>, n: int): Option<Event> {
    if 1 <= n <= |events| then Some(events[n - 1]) else None
  }

  predicate Contiguous(events: seq<Event>) {
    forall i | 0 <= i < |events| :: events[i].seqNo == i + 1
  }

  predicate TicksOrdered(events: seq<Event>) {
    forall i | 0 < i < |events| :: events[i - 1].tick <= events[i].tick
  }

  // ---------- Comparing evidence the way mappings compare ----------

  function Numeric(v: Json): Option<int> {
    match v
    case Bool(b) => Some(if b then 1 else 0)
    case Int(n) => Some(n)
    case _ => None
  }

  /** Equality of a value with a flat fact, under which `True == 1`. */
  predicate EqualsFact(v: Json, fact: Json) {
    v == fact || (Numeric(v).Some? && Numeric(v) == Numeric(fact))
  }

  predicate EvidenceEquals(m: map<string, Json>, facts: map<string, Json>) {
    m.Keys == facts.Keys && forall k | k in m :: EqualsFact(m[k], facts[k])
  }

  /** A flag written as the number Python takes it for. */
  function AsNumber(fact: Json): Json {
    match fact
    case Bool(b) => Int(if b then 1 else 0)
    case _ => fact
  }

  /** The comparison with a transition's facts is exact on every text and every absent
      value, but takes 1 and 0 for the flags: two different maps can both pass. */
  lemma FactsComparedExactly(m: map<string, Json>, r: Record, e: Evidence)
    ensures var facts := TransitionFacts(r, e);
            EvidenceEquals(m, facts) <==>
              m.Keys == facts.Keys && forall k | k in m :: m[k] == facts[k] || m[k] == AsNumber(facts[k])
  {
    hide KeyName, KeyOfName, TransitionFacts, StateName, CauseName;
    FactEntries(r, e);
    var facts := TransitionFacts(r, e);
    forall name | name in facts ensures facts[name].Str? || facts[name].Bool? || facts[name].Null? {
      var k: FactKey :| name == KeyName(k);
      assert facts[name] == FactValue(r, e, k);
    }
  }

  lemma NumberPassesForFlag(r: Record, e: Evidence)
    requires e.isFresh
    ensures var facts := TransitionFacts(r, e);
            var loose := facts[KeyName(FreshKey) := Int(1)];
            loose != facts && EvidenceEquals(loose, facts)
  {
    hide KeyName, KeyOfName, TransitionFacts, StateName, CauseName;
    FactEntries(r, e);
    var facts := TransitionFacts(r, e);
    var loose := facts[KeyName(FreshKey) := Int(1)];
    assert facts[KeyName(FreshKey)] == Bool(true);
    assert loose.Keys == facts.Keys;
  }

  // ---------- Checks of one operation ----------

  predicate IsProposal(e: Option<Event>, id: Identity) {
    && e.Some? && e.value.kind == ActionProposed && MatchesIdentity(e.value, id)
    && e.value.links.attemptId.None? && e.value.evidence == map[]
  }

  predicate IsDispatch(e: Option<Event>, id: Identity, attemptId: string) {
    && e.Some? && e.value.kind == AttemptDispatched && MatchesIdentity(e.value, id)
    && e.value.links.attemptId == Some(attemptId) && e.value.evidence == map[]
  }

  predicate IsPreparation(e: Option<Event>, id: Identity, tick: int) {
    && e.Some? && e.value.kind == OperationPrepared && MatchesIdentity(e.value, id)
    && e.value.links.attemptId.None? && e.value.evidence == map[] && e.value.tick == tick
  }

  predicate IsTransition(e: Option<Event>, id: Identity, attemptId: Option<string>) {
    && e.Some? && e.value.kind == StateTransition && MatchesIdentity(e.value, id)
    && e.value.links.attemptId == attemptId
  }

  predicate IsDispatchRecord(p: Persisted, attemptId: string) {
    p.record.attemptId == Some(attemptId) && p.record.resulting == InFlight && p.record.violationReason.None?
  }

  /** `history_by_attempt.get(attemptId)`: the last such transition wins. */
  function HistoryByAttempt(history: seq<Persisted>, attemptId: string): Option<Persisted> {
    if |history| == 0 then None
    else if IsDispatchRecord(history[|history| - 1], attemptId) then Some(history[|history| - 1])
    else HistoryByAttempt(history[..|history| - 1], attemptId)
  }

  predicate AttemptRowAccepted(events: seq<Event>, s: Snapshot, row: AttemptRow, expectedOrdinal: int) {
    var dispatch := EventAt(events, row.dispatchSeq);
    var transition := EventAt(events, row.transitionSeq);
    var persisted := HistoryByAttempt(s.history, row.attemptId);
    && row.ordinal == expectedOrdinal
    && IsDispatch(dispatch, s.identity, row.attemptId)
    && IsTransition(transition, s.identity, Some(row.attemptId))
    && row.transitionSeq == row.dispatchSeq + 1
    && transition.value.tick == dispatch.value.tick
    && persisted.Some? && persisted.value.eventSeq == row.transitionSeq
    && persisted.value.record.resulting == InFlight
  }

  predicate AttemptsAccepted(events: seq<Event>, s: Snapshot, rows: seq<AttemptRow>) {
    forall i | 0 <= i < |rows| :: AttemptRowAccepted(events, s, rows[i], i + 1)
  }

  predicate TransitionAccepted(events: seq<Event>, s: Snapshot, p: Persisted) {
    var e := EventAt(events, p.eventSeq);
    && IsTransition(e, s.identity, p.record.attemptId)
    && EvidenceEquals(e.value.evidence, TransitionFacts(p.record, p.evidence))
    && (SuccessfullyPrepared(p.record) ==> IsPreparation(EventAt(events, p.eventSeq - 1), s.identity, e.value.tick))
  }

  predicate TransitionsAccepted(events: seq<Event>, s: Snapshot) {
    forall i | 0 <= i < |s.history| :: TransitionAccepted(events, s, s.history[i])
  }

  function LastSeq(s: Snapshot): int {
    if |s.history| == 0 then s.createdSeq else s.history[|s.history| - 1].eventSeq
  }

  predicate SnapshotAccepted(t: Tables, events: seq<Event>, s: Snapshot) {
    && IsProposal(EventAt(events, s.createdSeq), s.identity)
    && s.updatedSeq == LastSeq(s)
    && AttemptsAccepted(events, s, AttemptsOf(t, s.identity.actionId))
    && TransitionsAccepted(events, s)
  }

  // ---------- Accounting for managed events ----------

  function AttemptReferences(rows: seq<AttemptRow>): set<int> {
    (set r | r in rows :: r.dispatchSeq) + (set r | r in rows :: r.transitionSeq)
  }

  function TransitionReferences(history: seq<Persisted>): set<int> {
    (set p | p in history :: p.eventSeq) + (set p | p in history && SuccessfullyPrepared(p.record) :: p.eventSeq - 1)
  }

  function References(t: Tables, s: Snapshot): set<int> {
    {s.createdSeq} + AttemptReferences(AttemptsOf(t, s.identity.actionId)) + TransitionReferences(s.history)
  }

  function ExpectedManaged(t: Tables, snapshots: seq<Snapshot>): set<int> {
    set s, n | s in snapshots && n in References(t, s) :: n
  }

  function ActualManaged(events: seq<Event>): set<int> {
    set e | e in events && Managed(e.kind) :: e.seqNo
  }

  predicate MetadataAccepted(t: Tables, runId: string) {
    t.metadata == [MetadataRow(LEDGER_SCHEMA_VERSION, CONTRACT_SCHEMA_VERSION, runId)]
  }

  predicate Accepted(t: Tables, runId: string) {
    && ForeignKeysHold(t)
    && MetadataAccepted(t, runId)
    && EventsOf(t).Ok?
    && var events := EventsOf(t).value;
    && Contiguous(events)
    && TicksOrdered(events)
    && Snapshots(t).Ok?
    && var snapshots := Snapshots(t).value;
    && (forall s | s in snapshots :: SnapshotAccepted(t, events, s))
    && ActualManaged(events) == ExpectedManaged(t, snapshots)
  }

  // ---------- What an accepted operation looks like ----------

  lemma {:induction false} SnapshotsOfRowsExact(t: Tables, rows: seq<OperationRow>)
    requires SnapshotsOfRows(t, rows).Ok?
    ensures var ss := SnapshotsOfRows(t, rows).value;
            |ss| == |rows| && forall i | 0 <= i < |rows| :: SnapshotOf(t, rows[i].identity.actionId) == Ok(ss[i])
  {
    hide SnapshotOf;
    if |rows| > 0 {
      SnapshotsOfRowsExact(t, rows[..|rows| - 1]);
    }
  }

  /** The snapshot of one operation row, with the history and attempts behind it. */
  predicate Describes(t: Tables, row: OperationRow, s: Snapshot) {
    var a := row.identity.actionId;
    var log := EntriesOfRows(TransitionsOf(t, a));
    && s.identity == row.identity && s.state == row.state
    && s.createdSeq == row.createdSeq && s.updatedSeq == row.updatedSeq
    && OrdinalsCount(TransitionsOf(t, a)) && Legal(row.identity, log)
    && s.history == PersistedOfRows(TransitionsOf(t, a))
    && s.state == After(row.identity, log).state
    && s.attemptIds == Attempts(log) == AttemptIds(AttemptsOf(t, a))
    && DistinctIds(s.attemptIds)
    && OrdinalsContiguous(AttemptsOf(t, a))
  }

  lemma LoadedOperation(t: Tables, row: OperationRow)
    requires OperationsKeyed(t) && row in t.operations && SnapshotOf(t, row.identity.actionId).Ok?
    ensures Describes(t, row, SnapshotOf(t, row.identity.actionId).value)
  {
    var a := row.identity.actionId;
    FindOperationKeyed(t, row);
    ReplayExact(row.identity, TransitionsOf(t, a));
    var log := EntriesOfRows(TransitionsOf(t, a));
    MachineOfLegal(row.identity, log);
  }

  /** What loading an operation asks of its rows: ordinals that count, a legal history that
      ends in the cached state, and attempt rows that list the history's attempts. */
  predicate Loadable(t: Tables, row: OperationRow) {
    var a := row.identity.actionId;
    var log := EntriesOfRows(TransitionsOf(t, a));
    && OrdinalsCount(TransitionsOf(t, a)) && Legal(row.identity, log) && row.state == StateBefore(log, |log|)
    && OrdinalsContiguous(AttemptsOf(t, a)) && AttemptIds(AttemptsOf(t, a)) == Attempts(log)
  }

  /** An operation loads exactly when its rows are of this kind, on any tables at all; an
      integrity error is raised otherwise, and an unregistered action is not found. */
  lemma LoadsExactly(t: Tables, a: string)
    ensures var row := FindOperation(t.operations, a);
            SnapshotOf(t, a) ==
              if row.None? then Err(OperationNotFound)
              else if !Loadable(t, row.value) then Err(Integrity)
              else Ok(Snapshot(row.value.identity, row.value.state, row.value.createdSeq, row.value.updatedSeq,
                               AttemptIds(AttemptsOf(t, a)), PersistedOfRows(TransitionsOf(t, a))))
  {
    FindOperationSound(t.operations, a);
    if FindOperation(t.operations, a).Some? {
      var row := FindOperation(t.operations, a).value;
      var log := EntriesOfRows(TransitionsOf(t, a));
      hide Legal, After, Replay, TransitionsOf, AttemptsOf, ValidAttemptId, FindOperation, Attempts, OrdinalsCount,
           OrdinalsContiguous, DistinctIds, PersistedOfRows, EntriesOfRows, StateBefore, AttemptIds, RecordsOf;
      ReplayExact(row.identity, TransitionsOf(t, a));
      if Legal(row.identity, log) {
        MachineOfLegal(row.identity, log);
        AttemptsValid(row.identity, log);
        ListedAreValid(AttemptsOf(t, a), Attempts(log));
      }
    }
  }

  lemma ListedAreValid(rows: seq<AttemptRow>, ids: seq<string>)
    requires forall x | x in ids :: ValidAttemptId(x)
    ensures AttemptIds(rows) == ids ==> forall i | 0 <= i < |rows| :: ValidAttemptId(rows[i].attemptId)
  {
    hide ValidAttemptId;
    assert forall i | 0 <= i < |rows| :: AttemptIds(rows)[i] == rows[i].attemptId;
    if AttemptIds(rows) == ids {
      forall i | 0 <= i < |rows| ensures ValidAttemptId(rows[i].attemptId) {
        assert ids[i] in ids;
      }
    }
  }

  function TheSnapshot(t: Tables, row: OperationRow): Snapshot
    requires SnapshotOf(t, row.identity.actionId).Ok?
  {
    SnapshotOf(t, row.identity.actionId).value
  }

  /** The parts of acceptance the operations depend on. */
  lemma AcceptedParts(t: Tables, runId: string)
    requires Accepted(t, runId)
    ensures EventsOf(t).Ok? && SnapshotsOfRows(t, OrderedOperations(t)).Ok?
    ensures forall s | s in SnapshotsOfRows(t, OrderedOperations(t)).value :: SnapshotAccepted(t, EventsOf(t).value, s)
    ensures Snapshots(t) == SnapshotsOfRows(t, OrderedOperations(t))
  {
    hide SnapshotAccepted, ForeignKeysHold, MetadataAccepted, EventsOf, SnapshotsOfRows, OrderedOperations,
         ActualManaged, ExpectedManaged;
  }

  /** Every operation row of accepted tables has its snapshot among those checked, and
      every checked snapshot belongs to a row. */
  lemma AcceptedOperation(t: Tables, runId: string, row: OperationRow)
    requires Keyed(t) && Accepted(t, runId) && row in t.operations
    ensures SnapshotOf(t, row.identity.actionId).Ok?
    ensures TheSnapshot(t, row) in Snapshots(t).value
    ensures Describes(t, row, TheSnapshot(t, row))
    ensures SnapshotAccepted(t, EventsOf(t).value, TheSnapshot(t, row))
  {
    hide SnapshotOf, Describes, SnapshotAccepted, Accepted, SnapshotsOfRows, Snapshots, EventsOf, Sql.OrderBy,
         OperationBefore;
    AcceptedParts(t, runId);
    var rows := OrderedOperations(t);
    Sql.OrderByMembers(t.operations, OperationBefore);
    SnapshotsOfRowsExact(t, rows);
    var i :| 0 <= i < |rows| && rows[i] == row;
    assert Snapshots(t).value[i] == TheSnapshot(t, row);
    LoadedOperation(t, row);
  }

  lemma AcceptedSnapshot(t: Tables, runId: string, s: Snapshot) returns (row: OperationRow)
    requires Keyed(t) && Accepted(t, runId) && s in Snapshots(t).value
    ensures row in t.operations && SnapshotOf(t, row.identity.actionId) == Ok(s)
  {
    hide SnapshotOf, SnapshotAccepted, Accepted, SnapshotsOfRows, Snapshots, EventsOf, Sql.OrderBy, OperationBefore,
         Keyed;
    AcceptedParts(t, runId);
    var rows := OrderedOperations(t);
    Sql.OrderByMembers(t.operations, OperationBefore);
    SnapshotsOfRowsExact(t, rows);
    var i :| 0 <= i < |rows| && Snapshots(t).value[i] == s;
    row := rows[i];
  }

  lemma OperationOfAction(t: Tables, a: string) returns (row: OperationRow)
    requires HasOperation(t, a)
    ensures row in t.operations && row.identity.actionId == a
  {
    var i :| 0 <= i < |t.operations| && t.operations[i].identity.actionId == a;
    row := t.operations[i];
  }

  lemma {:induction false} HistoryByAttemptMember(history: seq<Persisted>, attemptId: string)
    ensures HistoryByAttempt(history, attemptId).Some? ==> HistoryByAttempt(history, attemptId).value in history
  {
    if |history| > 0 && !IsDispatchRecord(history[|history| - 1], attemptId) {
      HistoryByAttemptMember(history[..|history| - 1], attemptId);
    }
  }
}
