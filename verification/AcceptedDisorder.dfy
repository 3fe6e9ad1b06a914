/** Accepted tables whose flags all stand in the log as Booleans and whose sequence numbers
    fall: the second transition of an action at event 2, the first at event 3. */
module AcceptedDisorder {
  import opened Wrappers
  import opened StateMachine
  import opened Histories
  import opened Contracts
  import opened LedgerTables
  import opened LedgerCalls
  import opened LedgerChecker
  import opened LedgerProtocol
  import opened LiveLedger
  import opened LedgerRefinement
  import opened LedgerHistory
  import opened AcceptedFold
  import opened WrittenTables
  import opened AcceptedUnreachable
  import LedgerReachable
  import LiveInvariant
  import ReachableExactly
  import Sql

  const CONFIRMED := Evidence("e", AuthorityConfirmed, true, true, true, true, true)
  const STOPPED := Evidence("e", SafeStopSelected, true, true, true, true, true)

  /** The step from PROPOSED to AUTHORIZED and the step from there to SAFE_STOP. */
  function FirstStep(): Step {
    TakeStep(Fresh(WITNESS_ACTION), Authorized, CONFIRMED, WITNESS_ACTION, None)
  }

  function SecondStep(): Step {
    TakeStep(FirstStep().machine, SafeStop, STOPPED, WITNESS_ACTION, None)
  }

  function FirstRow(): TransitionRow {
    RowOfStep("action-1", 1, 3, WITNESS_ACTION, FirstStep().record, CONFIRMED)
  }

  function SecondRow(): TransitionRow {
    RowOfStep("action-1", 2, 2, WITNESS_ACTION, SecondStep().record, STOPPED)
  }

  function Log(): seq<Event> {
    [Event(1, 0, ActionProposed, IdentityLinks(WITNESS_ACTION, None), map[]),
     Event(2, 0, StateTransition, IdentityLinks(WITNESS_ACTION, None), TransitionFacts(SecondStep().record, STOPPED)),
     Event(3, 0, StateTransition, IdentityLinks(WITNESS_ACTION, None), TransitionFacts(FirstStep().record, CONFIRMED))]
  }

  function Disordered(): Tables {
    Tables([MetadataRow(LEDGER_SCHEMA_VERSION, CONTRACT_SCHEMA_VERSION, "run-1")],
           RowsOfEvents(Log()),
           [OperationRow(WITNESS_ACTION, SafeStop, 1, 2)],
           [SecondRow(), FirstRow()],
           [])
  }

  function FirstEntry(): Entry {
    Entry(FirstStep().record, CONFIRMED, WITNESS_ACTION, 3)
  }

  function SecondEntry(): Entry {
    Entry(SecondStep().record, STOPPED, WITNESS_ACTION, 2)
  }

  function TheSnap(): Snapshot {
    Snapshot(WITNESS_ACTION, SafeStop, 1, 2, [], [PersistedOf(FirstEntry()), PersistedOf(SecondEntry())])
  }

  // ---------- Its two steps ----------

  predicate Moves(s: Step, source: State, target: State, e: Evidence) {
    && !s.raised && s.machine.identity == WITNESS_ACTION && s.machine.state == target && s.machine.attemptIds == []
    && s.record == Record(source, target, target, e.evidenceId, e.cause, None, None)
  }

  lemma Accepts(m: Machine, target: State, e: Evidence)
    requires m.identity == WITNESS_ACTION && m.attemptIds == [] && target != InFlight && target != Violation
    requires m.state != Violation && m.state != Reconciling && m.state != Verifying
    requires NormativeCause(m.state, target) == Some(e.cause)
    ensures Moves(TakeStep(m, target, e, WITNESS_ACTION, None), m.state, target, e)
  {
    hide NormativeCause, ReasonText;
    ChangedFieldsExact(WITNESS_ACTION, WITNESS_ACTION);
  }

  lemma Steps()
    ensures Moves(FirstStep(), Proposed, Authorized, CONFIRMED)
    ensures Moves(SecondStep(), Authorized, SafeStop, STOPPED)
  {
    hide TakeStep;
    Accepts(Fresh(WITNESS_ACTION), Authorized, CONFIRMED);
    Accepts(FirstStep().machine, SafeStop, STOPPED);
  }

  lemma EvidenceNamed()
    ensures ValidEvidenceId("e")
  {
  }

  /** The two entries make a legal history. */
  lemma HistoryLegal()
    ensures Legal(WITNESS_ACTION, [FirstEntry(), SecondEntry()])
    ensures After(WITNESS_ACTION, [FirstEntry(), SecondEntry()]) == SecondStep().machine
  {
    Steps();
    EvidenceNamed();
    hide TakeStep, ValidEvidenceId;
    assert After(WITNESS_ACTION, []) == Fresh(WITNESS_ACTION) && Legal(WITNESS_ACTION, []);
    assert Fits(Fresh(WITNESS_ACTION), FirstEntry());
    LiveInvariant.LegalExtends(WITNESS_ACTION, [], FirstEntry());
    assert [] + [FirstEntry()] == [FirstEntry()];
    assert Fits(FirstStep().machine, SecondEntry());
    LiveInvariant.LegalExtends(WITNESS_ACTION, [FirstEntry()], SecondEntry());
    assert [FirstEntry()] + [SecondEntry()] == [FirstEntry(), SecondEntry()];
  }

  // ---------- Its rows read back ----------

  lemma RowsAreEntries()
    ensures EntryOfRow(FirstRow()) == FirstEntry() && EntryOfRow(SecondRow()) == SecondEntry()
    ensures PersistedOfRow(FirstRow()) == PersistedOf(FirstEntry())
    ensures PersistedOfRow(SecondRow()) == PersistedOf(SecondEntry())
  {
    Steps();
    hide FirstStep, SecondStep;
  }

  /** Two rows of one action are read by their ordinals, however they are stored. */
  lemma TwoRows(t: Tables, x: TransitionRow, y: TransitionRow, a: string)
    requires t.transitions == [y, x] && t.attempts == []
    requires x.actionId == a && y.actionId == a && x.ordinal == 1 && y.ordinal == 2
    ensures TransitionsOf(t, a) == [x, y] && AttemptsOf(t, a) == []
  {
    var rows := [y, x];
    assert rows[..1] == [y] && rows[..1][..0] == [];
    assert TransitionsWhere(rows[..1][..0], a) == [];
    assert TransitionsWhere(rows[..1], a) == [y];
    assert TransitionsWhere(rows, a) == rows;
    Sql.OrderByKeeps(rows[..1], TransitionBefore);
    assert Sql.OrderBy(rows, TransitionBefore) == Sql.InsertOrdered([y], x, TransitionBefore) == [x] + [y];
  }

  lemma RowsRead(t: Tables)
    requires t == Disordered()
    ensures TransitionsOf(t, "action-1") == [FirstRow(), SecondRow()] && AttemptsOf(t, "action-1") == []
  {
    hide FirstStep, SecondStep, RowsOfEvents, Log, TransitionsOf, AttemptsOf;
    TwoRows(t, FirstRow(), SecondRow(), "action-1");
  }

  lemma Replays()
    ensures Replay(WITNESS_ACTION, [FirstRow(), SecondRow()])
         == Ok((SecondStep().machine, [PersistedOf(FirstEntry()), PersistedOf(SecondEntry())]))
  {
    hide FirstStep, SecondStep, FirstEntry, SecondEntry, Legal, After, Replay, EntryOfRow, PersistedOfRow;
    RowsAreEntries();
    HistoryLegal();
    var rows := [FirstRow(), SecondRow()];
    ReplayExact(WITNESS_ACTION, rows);
    assert EntriesOfRows(rows) == [FirstEntry(), SecondEntry()];
    assert PersistedOfRows(rows) == [PersistedOf(FirstEntry()), PersistedOf(SecondEntry())];
  }

  /** An action without attempts reads as its replay. */
  lemma ReadsAs(t: Tables, row: OperationRow, rows: seq<TransitionRow>, m: Machine, ps: seq<Persisted>)
    requires t.operations == [row] && TransitionsOf(t, row.identity.actionId) == rows
    requires AttemptsOf(t, row.identity.actionId) == [] && Replay(row.identity, rows) == Ok((m, ps))
    requires m.identity == row.identity && m.state == row.state && m.attemptIds == []
    ensures SnapshotOf(t, row.identity.actionId)
         == Ok(Snapshot(row.identity, row.state, row.createdSeq, row.updatedSeq, [], ps))
  {
    hide TransitionsOf, AttemptsOf, Replay;
    assert FindOperation(t.operations, row.identity.actionId) == Some(row);
  }

  lemma ListsAs(t: Tables, row: OperationRow, s: Snapshot)
    requires t.operations == [row] && SnapshotOf(t, row.identity.actionId) == Ok(s)
    ensures Snapshots(t) == Ok([s])
  {
    hide SnapshotOf;
    Sql.OrderByKeeps(t.operations, OperationBefore);
    var rows := t.operations;
    assert rows[..|rows| - 1] == [] && rows[|rows| - 1] == row;
    assert SnapshotsOfRows(t, rows[..|rows| - 1]) == Ok([]);
    assert [] + [s] == [s];
    assert SnapshotsOfRows(t, rows) == Ok([] + [s]);
  }

  lemma SnapshotRead(t: Tables)
    requires t == Disordered()
    ensures Snapshots(t) == Ok([TheSnap()])
  {
    hide FirstStep, SecondStep, FirstRow, SecondRow, FirstEntry, SecondEntry, RowsOfEvents, Log, Replay, TransitionsOf,
         AttemptsOf, Snapshots, SnapshotOf;
    RowsRead(t);
    Replays();
    Steps();
    var row := OperationRow(WITNESS_ACTION, SafeStop, 1, 2);
    ReadsAs(t, row, [FirstRow(), SecondRow()], SecondStep().machine,
            [PersistedOf(FirstEntry()), PersistedOf(SecondEntry())]);
    ListsAs(t, row, TheSnap());
  }

  lemma FactsAreValid()
    ensures ValidEvidenceMap(TransitionFacts(FirstStep().record, CONFIRMED))
    ensures ValidEvidenceMap(TransitionFacts(SecondStep().record, STOPPED))
  {
    EvidenceNamed();
    hide TakeStep, ValidEvidenceMap, TransitionFacts, ValidEvidenceId;
    FactsValid(Fresh(WITNESS_ACTION), Authorized, CONFIRMED, WITNESS_ACTION, None);
    FactsValid(FirstStep().machine, SafeStop, STOPPED, WITNESS_ACTION, None);
  }

  lemma LogValid()
    ensures LogInv(Log()) && |Log()| == 3
  {
    hide FirstStep, SecondStep, ValidEvidenceMap, TransitionFacts;
    FactsAreValid();
    LiveInvariant.NoEvidenceValid();
  }

  // ---------- It is keyed and accepted ----------

  lemma DisorderedKeyed(t: Tables)
    requires t == Disordered()
    ensures Keyed(t)
  {
    hide TakeStep, TransitionFacts, CanonicalJson.Print;
    assert forall i | 0 <= i < 3 :: t.events[i].seqNo == i + 1 && t.events[i].tick == 0;
  }

  lemma EntryLinked(first: bool)
    ensures Linked(Log(), WITNESS_ACTION, if first then FirstEntry() else SecondEntry())
  {
    Steps();
    hide TakeStep, TransitionFacts;
  }

  lemma SnapAccepted(t: Tables)
    requires t == Disordered()
    ensures SnapshotAccepted(t, Log(), TheSnap())
  {
    hide FirstStep, SecondStep, TransitionFacts, Linked, TransitionAccepted, AttemptsOf, Disordered;
    RowsRead(t);
    EntryLinked(true);
    EntryLinked(false);
    LedgerReachable.LinkedAccepted(Log(), TheSnap(), FirstEntry());
    LedgerReachable.LinkedAccepted(Log(), TheSnap(), SecondEntry());
  }

  lemma Referred(t: Tables, s: Snapshot)
    requires AttemptsOf(t, s.identity.actionId) == [] && s.createdSeq == 1
    requires |s.history| == 2 && s.history[0].eventSeq == 3 && s.history[1].eventSeq == 2
    requires !SuccessfullyPrepared(s.history[0].record) && !SuccessfullyPrepared(s.history[1].record)
    ensures References(t, s) == {1, 2, 3}
  {
    hide AttemptsOf, SuccessfullyPrepared;
    assert s.history[0] in s.history && s.history[1] in s.history;
    assert TransitionReferences(s.history) == {2, 3};
    assert AttemptReferences([]) == {};
  }

  lemma AllManaged()
    ensures ActualManaged(Log()) == {1, 2, 3}
  {
    hide FirstStep, SecondStep, TransitionFacts, IdentityLinks;
    assert Log()[0] in Log() && Log()[1] in Log() && Log()[2] in Log();
  }

  lemma ManagedCounted(t: Tables)
    requires t == Disordered()
    ensures ActualManaged(Log()) == ExpectedManaged(t, [TheSnap()])
  {
    hide FirstStep, SecondStep, AttemptsOf, Disordered, Log, ActualManaged, References;
    Steps();
    RowsRead(t);
    AllManaged();
    Referred(t, TheSnap());
    assert TheSnap() in [TheSnap()];
    assert ExpectedManaged(t, [TheSnap()]) == {1, 2, 3};
  }

  lemma AcceptedWith(t: Tables, runId: string, events: seq<Event>, s: Snapshot)
    requires ForeignKeysHold(t) && MetadataAccepted(t, runId) && EventsOf(t) == Ok(events) && LogInv(events)
    requires Snapshots(t) == Ok([s]) && SnapshotAccepted(t, events, s)
    requires ActualManaged(events) == ExpectedManaged(t, [s])
    ensures Accepted(t, runId)
  {
    hide ForeignKeysHold, MetadataAccepted, EventsOf, Snapshots, SnapshotAccepted, ActualManaged, ExpectedManaged,
         ValidEvent;
  }

  lemma DisorderedAccepted(t: Tables)
    requires t == Disordered()
    ensures Accepted(t, "run-1") && EventsOf(t) == Ok(Log()) && Snapshots(t) == Ok([TheSnap()])
  {
    assert RepEvents(t, Log()) && MetadataAccepted(t, "run-1");
    hide EventsOf, Snapshots, SnapshotAccepted, ActualManaged, ExpectedManaged, RepEvents, Log, TheSnap, Disordered,
         ForeignKeysHold, MetadataAccepted, HasEvent, NextSeq, LatestEvent, Accepted, OrderedEvents, LogInv;
    LogValid();
    EventsRead(t, Log());
    KeysRefer(t);
    SnapshotRead(t);
    SnapAccepted(t);
    ManagedCounted(t);
    AcceptedWith(t, "run-1", Log(), TheSnap());
  }

  lemma KeysRefer(t: Tables)
    requires t == Disordered() && forall n: int :: HasEvent(t, n) <==> 1 <= n <= 3
    ensures ForeignKeysHold(t)
  {
    hide HasEvent, FirstStep, SecondStep, Log, RowsOfEvents;
    assert t.operations[0].identity.actionId == "action-1";
  }

  // ---------- It shows neither the fold nor what calls write ----------

  lemma FlagsKept()
    ensures TrueFlagsKept(Log(), TheSnap())
  {
    hide TakeStep, TransitionFacts, FactValue, StoredTrue, FirstStep, SecondStep;
    forall k: FactKey | FactValue(FirstStep().record, CONFIRMED, k) == CanonicalJson.Bool(true)
      ensures StoredTrue(TransitionFacts(FirstStep().record, CONFIRMED), k)
    {
      FlagStored(FirstStep().record, CONFIRMED, k);
    }
    forall k: FactKey | FactValue(SecondStep().record, STOPPED, k) == CanonicalJson.Bool(true)
      ensures StoredTrue(TransitionFacts(SecondStep().record, STOPPED), k)
    {
      FlagStored(SecondStep().record, STOPPED, k);
    }
  }

  lemma Falls()
    ensures !SeqsIncrease(TheSnap())
  {
    hide TakeStep;
    assert !RisesAt(TheSnap(), 1);
  }

  lemma StoredAsWritten(t: Tables)
    requires t == Disordered()
    ensures StoredInOrder(t) && ManagedRowsPlain(t) && IdsWithDispatches(t)
  {
    Steps();
    hide FirstStep, SecondStep, TransitionFacts, CanonicalJson.Print;
  }

  lemma FactsWritten(t: Tables)
    requires t == Disordered()
    ensures ReachableExactly.FactsStored(t)
  {
    RowsAreEntries();
    hide FirstStep, SecondStep, TransitionFacts, CanonicalJson.Print;
    assert RecordOfRow(FirstRow()) == EntryOfRow(FirstRow()).record;
    assert RecordOfRow(SecondRow()) == EntryOfRow(SecondRow()).record;
    assert forall i | 0 <= i < 3 :: t.events[i].seqNo == i + 1;
  }

  lemma FallsInTables(t: Tables)
    requires Snapshots(t) == Ok([TheSnap()])
    ensures !ReachableExactly.InSequence(t)
    ensures forall s | s in Snapshots(t).value :: s == TheSnap()
  {
    hide TheSnap, SeqsIncrease, Snapshots;
    Falls();
    assert TheSnap() in Snapshots(t).value;
  }

  /** Keyed and accepted tables that are as written but for their sequence numbers, which
      fall: they show something else than their log folds to, and no calls leave them. */
  lemma OrderIsNeeded() returns (t: Tables)
    ensures Keyed(t) && Accepted(t, "run-1")
    ensures StoredInOrder(t) && ManagedRowsPlain(t) && IdsWithDispatches(t) && ReachableExactly.FactsStored(t)
    ensures Snapshots(t).Ok? && EventsOf(t).Ok?
    ensures forall s | s in Snapshots(t).value :: TrueFlagsKept(EventsOf(t).value, s) && !SeqsIncrease(s)
    ensures !ShowsFold(t) && forall calls: seq<Call> :: Run(Create("run-1"), calls).0.tables != t
  {
    t := Disordered();
    hide Keyed, Accepted, EventsOf, Snapshots, ShowsFold, TrueFlagsKept, SeqsIncrease, Log, TheSnap, Disordered, Run,
         Create, ReachableExactly.InSequence, ReachableExactly.FactsStored, StoredInOrder, ManagedRowsPlain,
         IdsWithDispatches;
    DisorderedKeyed(t);
    DisorderedAccepted(t);
    StoredAsWritten(t);
    FactsWritten(t);
    FlagsKept();
    Falls();
    FallsInTables(t);
    AcceptedFoldExactly(t, "run-1");
    assert TheSnap() in Snapshots(t).value;
    ReachableExactly.ReachableExactly(t, "run-1");
  }
}
