/** Exactly which tables calls can leave: the keyed and accepted tables that hold what the
    calls write. From such tables a live ledger is read off, the calls that lead to it are
    recovered one by one from the end of its log, and running them stores the tables again. */
module ReachableExactly {
  import opened Wrappers
  import opened StateMachine
  import opened Histories
  import opened Contracts
  import opened LedgerTables
  import opened LedgerCalls
  import opened LedgerChecker
  import opened LedgerProtocol
  import opened LiveLedger
  import opened LedgerRefinement
  import opened LedgerAcceptance
  import opened LedgerHistory
  import opened LiveReachability
  import opened WrittenTables
  import AcceptedFold
  import CanonicalJson
  import LedgerAtomicity
  import LedgerReachable
  import LedgerSimulation
  import LiveInvariant
  import Sql

  /** The event of a transition row holds exactly the row's facts. */
  predicate FactsStoredFor(t: Tables, r: TransitionRow) {
    forall i | 0 <= i < |t.events| && t.events[i].seqNo == r.eventSeq ::
      t.events[i].evidenceJson == CanonicalJson.Print(CanonicalJson.Obj(TransitionFacts(RecordOfRow(r), r.evidence)))
  }

  predicate FactsStored(t: Tables) {
    forall i | 0 <= i < |t.transitions| :: FactsStoredFor(t, t.transitions[i])
  }

  /** Every action's transitions follow its proposal in rising order. */
  predicate InSequence(t: Tables) {
    Snapshots(t).Ok? && forall s | s in Snapshots(t).value :: SeqsIncrease(s)
  }

  /** The tables hold nothing no call writes. */
  predicate AsWritten(t: Tables) {
    StoredInOrder(t) && ManagedRowsPlain(t) && IdsWithDispatches(t) && FactsStored(t) && InSequence(t)
  }

  // ---------- Reachable tables are as written ----------

  lemma RowFacts(t: Tables, v: Live, r: TransitionRow)
    requires Rep(t, v) && Inv(v) && r in t.transitions
    ensures FactsStoredFor(t, r)
  {
    hide Inv, TransitionFacts, RowsOfLog, CanonicalJson.Print, RepTransitions, RepAttempts, RepOperations,
         IsPreparation, IsDispatch, IdentityLinks;
    LedgerSimulation.StoredTransition(t, v, r);
    LedgerReachable.LogOrdered(v);
    LedgerSimulation.EntryInLog(v, r.actionId, r.ordinal - 1);
    EntryReadsBack(v, r.actionId, r.ordinal - 1);
  }

  lemma EntryReadsBack(v: Live, a: string, j: nat)
    requires Inv(v) && a in v.ops && j < |v.ops[a].log|
    ensures EntryOfRow(LedgerRefinement.RowOfEntry(a, j + 1, v.ops[a].log[j])) == v.ops[a].log[j]
  {
    HistoryOfOp(v, a);
    hide Inv, Legal, After, Link, EntryOfRow, LedgerRefinement.RowOfEntry;
    LogReadsBack(v.ops[a].machine.identity, a, v.ops[a].log);
    assert EntriesOfRows(RowsOfLog(a, v.ops[a].log))[j] == v.ops[a].log[j];
  }

  lemma SnapshotsRise(t: Tables, v: Live)
    requires Rep(t, v) && Inv(v)
    ensures InSequence(t)
  {
    hide Inv, Rep, Snapshots, SnapshotOfLive, SeqsIncrease;
    SnapshotsRead(t, v);
    forall s | s in Snapshots(t).value ensures SeqsIncrease(s) {
      var i :| 0 <= i < |v.order| && LiveSnapshots(v.order, v.ops)[i] == s;
      LiveSeqsIncrease(v, v.order[i]);
    }
  }

  /** Whatever calls were made, the tables they left are keyed, accepted and as written. */
  lemma ReachableAsWritten(runId: string, calls: seq<Call>)
    ensures var t := Run(Create(runId), calls).0.tables; Keyed(t) && Accepted(t, runId) && AsWritten(t)
  {
    var t := Run(Create(runId), calls).0.tables;
    var v := LedgerReachable.Reached(runId, calls);
    LedgerAtomicity.ReachableKeyed(runId, calls);
    LedgerReachable.WriterCheckerAgree(runId, calls, runId);
    ReachableTidy(runId, calls);
    hide Run, Create, Inv, Rep, LedgerReachable.LiveRun, Empty, Keyed, Accepted, InSequence, FactsStoredFor, OrderInv,
         StoredInOrder, ManagedRowsPlain, IdsWithDispatches, BelowNext;
    SnapshotsRise(t, v);
    forall i | 0 <= i < |t.transitions| ensures FactsStoredFor(t, t.transitions[i]) {
      RowFacts(t, v, t.transitions[i]);
    }
  }

  // ---------- The live ledger behind accepted tables ----------

  /** The machine and history the stored rows of an operation replay to. */
  function OpOf(t: Tables, row: OperationRow): LiveOp {
    var log := EntriesOfRows(TransitionsOf(t, row.identity.actionId));
    LiveOp(After(row.identity, log), row.createdSeq, log)
  }

  function ActionsOf(t: Tables): set<string> {
    set r | r in t.operations :: r.identity.actionId
  }

  ghost function RowNamed(t: Tables, a: string): (row: OperationRow)
    requires a in ActionsOf(t)
    ensures row in t.operations && row.identity.actionId == a
  {
    var row :| row in t.operations && row.identity.actionId == a;
    row
  }

  ghost function OpsOf(t: Tables): map<string, LiveOp> {
    map a | a in ActionsOf(t) :: OpOf(t, RowNamed(t, a))
  }

  function OrderOf(t: Tables): seq<string> {
    seq(|t.operations|, i requires 0 <= i < |t.operations| => t.operations[i].identity.actionId)
  }

  function IssuedIds(t: Tables): set<string> {
    set r | r in t.attempts :: r.attemptId
  }

  ghost function LiveOf(t: Tables, runId: string): Live
    requires EventsOf(t).Ok?
  {
    Live(runId, false, TheEvents(t), OrderOf(t), OpsOf(t), IssuedIds(t))
  }

  lemma OpNamed(t: Tables, row: OperationRow)
    requires OperationsKeyed(t) && row in t.operations
    ensures row.identity.actionId in OpsOf(t) && OpsOf(t)[row.identity.actionId] == OpOf(t, row)
  {
    hide OpOf;
    assert row.identity.actionId in ActionsOf(t);
    var named := RowNamed(t, row.identity.actionId);
    var i :| 0 <= i < |t.operations| && t.operations[i] == row;
    var j :| 0 <= j < |t.operations| && t.operations[j] == named;
    assert i == j;
  }

  // ---------- Its log ----------

  lemma {:induction false} DecodedExactly(rows: seq<EventRow>)
    requires EventsOfRows(rows).Ok?
    ensures var events := EventsOfRows(rows).value;
            RowsOfEvents(events) == rows && forall i | 0 <= i < |events| :: ValidEvent(events[i])
  {
    hide ValidEvent, RowOfEvent, EventFromRow;
    if |rows| > 0 {
      var n := |rows| - 1;
      DecodedExactly(rows[..n]);
      var init, last := EventsOfRows(rows[..n]).value, EventFromRow(rows[n]).value;
      EventRowExact(rows[n], last);
      assert RowsOfEvents(init + [last]) == RowsOfEvents(init) + [RowOfEvent(last)];
    }
  }

  lemma LogOfTables(t: Tables, runId: string)
    requires Accepted(t, runId) && EventsInOrder(t)
    ensures EventsOf(t).Ok? && LogInv(TheEvents(t)) && RepEvents(t, TheEvents(t))
  {
    AcceptedLog(t, runId);
    hide Accepted, ValidEvent, RowsOfEvents;
    Sql.OrderByKeeps(t.events, EventBefore);
    DecodedExactly(t.events);
  }

  lemma PlainLog(t: Tables, events: seq<Event>)
    requires RepEvents(t, events) && ManagedRowsPlain(t)
    ensures ManagedPlain(events)
  {
    hide PlainLinks, CanonicalJson.Print;
    forall i | 0 <= i < |events| && Managed(events[i].kind) ensures PlainLinks(events[i].links) {
      assert t.events[i] == RowOfEvent(events[i]);
    }
  }

  lemma FactsInLog(t: Tables, events: seq<Event>, r: TransitionRow)
    requires RepEvents(t, events) && LogInv(events) && FactsStoredFor(t, r) && 1 <= r.eventSeq <= |events|
    ensures events[r.eventSeq - 1].evidence == TransitionFacts(RecordOfRow(r), r.evidence)
  {
    hide TransitionFacts, CanonicalJson.Print, ValidEvidenceMap;
    var n := r.eventSeq - 1;
    assert t.events[n] == RowOfEvent(events[n]) && t.events[n].seqNo == r.eventSeq;
    CanonicalJson.PrintExact(CanonicalJson.Obj(events[n].evidence),
                             CanonicalJson.Obj(TransitionFacts(RecordOfRow(r), r.evidence)));
  }

  lemma LinksExact(e: Event, id: Identity, attemptId: Option<string>)
    requires MatchesIdentity(e, id) && e.links.attemptId == attemptId && PlainLinks(e.links)
    ensures e.links == IdentityLinks(id, attemptId)
  {
  }

  // ---------- Its operations ----------

  /** What acceptance says of one operation row. */
  ghost predicate Stands(t: Tables, row: OperationRow, s: Snapshot) {
    EventsOf(t).Ok? && Describes(t, row, s) && SnapshotAccepted(t, TheEvents(t), s)
  }

  lemma RowStands(t: Tables, runId: string, row: OperationRow)
    requires Keyed(t) && Accepted(t, runId) && row in t.operations
    ensures SnapshotOf(t, row.identity.actionId).Ok? && Stands(t, row, TheSnapshot(t, row))
    ensures TheSnapshot(t, row) in Snapshots(t).value
  {
    hide Accepted, Keyed, SnapshotOf, Describes, SnapshotAccepted, Snapshots, EventsOf;
    AcceptedLog(t, runId);
    AcceptedOperation(t, runId, row);
  }

  /** The rows of an accepted operation are those of the history they replay to. */
  lemma RowsOfOp(t: Tables, row: OperationRow, s: Snapshot)
    requires Stands(t, row, s)
    ensures var op := OpOf(t, row);
            && Legal(row.identity, op.log) && op.machine == After(row.identity, op.log)
            && op.machine.identity == row.identity && op.machine.attemptIds == Attempts(op.log)
            && AttemptIds(AttemptsOf(t, row.identity.actionId)) == Attempts(op.log) && DistinctIds(Attempts(op.log))
            && |op.log| == |s.history| && s.history == PersistedOfLog(op.log)
            && RowOfOp(op) == row
    ensures s.identity == row.identity && s.createdSeq == row.createdSeq
  {
    hide EventsOf, AttemptsOf, TransitionsOf, Legal, After, Attempts, DistinctIds, AttemptsAccepted,
         TransitionsAccepted, IsProposal, OrdinalsCount, OrdinalsContiguous;
    var rows := TransitionsOf(t, row.identity.actionId);
    MachineOfLegal(row.identity, EntriesOfRows(rows));
  }

  lemma StoredLog(t: Tables, row: OperationRow, s: Snapshot)
    requires Stands(t, row, s)
    ensures var a := row.identity.actionId; RowsOfLog(a, OpOf(t, row).log) == TransitionsOf(t, a)
  {
    hide EventsOf, AttemptsOf, TransitionsOf, Legal, After, Attempts, DistinctIds, SnapshotAccepted, OrdinalsContiguous;
    var a := row.identity.actionId;
    var rows := TransitionsOf(t, a);
    TransitionsOfMembers(t, a);
    forall i | 0 <= i < |rows| ensures RowsOfLog(a, EntriesOfRows(rows))[i] == rows[i] {
      assert rows[i] in rows;
    }
  }

  /** The dispatch event right before an entry, at the same tick. */
  predicate DispatchedBy(events: seq<Event>, id: Identity, e: Entry) {
    && e.record.attemptId.Some? && EventAt(events, e.eventSeq).Some?
    && IsDispatch(EventAt(events, e.eventSeq - 1), id, e.record.attemptId.value)
    && EventAt(events, e.eventSeq - 1).value.tick == EventAt(events, e.eventSeq).value.tick
  }

  /** The history finds the entry into IN_FLIGHT by its attempt id. */
  lemma HistoryKnows(id: Identity, log: seq<Entry>, j: nat)
    requires Legal(id, log) && DistinctIds(Attempts(log)) && j < |log| && log[j].record.resulting == InFlight
    ensures log[j].record.attemptId.Some? && log[j].record.attemptId.value in Attempts(log)
    ensures var p := HistoryByAttempt(PersistedOfLog(log), log[j].record.attemptId.value);
            p.Some? && p.value.eventSeq == log[j].eventSeq
  {
    IdOfDispatch(log, id, j);
    hide Legal, DistinctIds, HistoryByAttempt, AttemptRowsOfLog, Attempts, PersistedOfLog;
    var found := LedgerReachable.EntryHasRow(id.actionId, log, j);
    LedgerReachable.LookupFindsEntry(id, id.actionId, log, found);
    AttemptRowsCount(id.actionId, log);
    LedgerSimulation.RowOfId(AttemptRowsOfLog(id.actionId, log), found);
  }

  lemma IdOfDispatch(log: seq<Entry>, id: Identity, j: nat)
    requires Legal(id, log) && j < |log| && log[j].record.resulting == InFlight
    ensures log[j].record.attemptId.Some?
  {
    hide Legal, GuardHolds, NormativeCause, ValidAttemptId;
    Shape(id, log, j);
  }

  /** The events behind an accepted attempt id. */
  lemma AttemptBacked(events: seq<Event>, s: Snapshot, rows: seq<AttemptRow>, x: string)
    requires AttemptsAccepted(events, s, rows) && x in AttemptIds(rows)
    ensures var p := HistoryByAttempt(s.history, x);
            p.Some? && IsDispatch(EventAt(events, p.value.eventSeq - 1), s.identity, x)
            && EventAt(events, p.value.eventSeq).Some?
            && EventAt(events, p.value.eventSeq - 1).value.tick == EventAt(events, p.value.eventSeq).value.tick
  {
    hide HistoryByAttempt, MatchesIdentity, EventAt;
    var i :| 0 <= i < |AttemptIds(rows)| && AttemptIds(rows)[i] == x;
    assert AttemptRowAccepted(events, s, rows[i], i + 1);
  }

  lemma EntryDispatched(events: seq<Event>, s: Snapshot, rows: seq<AttemptRow>, log: seq<Entry>, j: nat)
    requires Legal(s.identity, log) && DistinctIds(Attempts(log)) && s.history == PersistedOfLog(log)
    requires AttemptsAccepted(events, s, rows) && AttemptIds(rows) == Attempts(log)
    requires j < |log| && log[j].record.resulting == InFlight
    ensures DispatchedBy(events, s.identity, log[j])
  {
    hide EventAt, IsDispatch, HistoryByAttempt, AttemptsAccepted, AttemptIds, PersistedOfLog, Legal, Attempts,
         DistinctIds;
    HistoryKnows(s.identity, log, j);
    AttemptBacked(events, s, rows, log[j].record.attemptId.value);
  }

  lemma DispatchingEntry(t: Tables, row: OperationRow, s: Snapshot, j: nat)
    requires Stands(t, row, s) && j < |OpOf(t, row).log| && OpOf(t, row).log[j].record.resulting == InFlight
    ensures DispatchedBy(TheEvents(t), row.identity, OpOf(t, row).log[j])
  {
    hide EventsOf, AttemptsOf, OpOf, TransitionsAccepted, IsProposal, Describes, AttemptsAccepted, RowOfOp, AttemptIds,
         PersistedOfLog, Legal, Attempts, DistinctIds, DispatchedBy;
    RowsOfOp(t, row, s);
    EntryDispatched(TheEvents(t), s, AttemptsOf(t, row.identity.actionId), OpOf(t, row).log, j);
  }

  /** An accepted transition row with plain links and exact facts is linked as calls link
      their entries. */
  lemma LinkedExactly(t: Tables, events: seq<Event>, s: Snapshot, r: TransitionRow)
    requires TransitionAccepted(events, s, PersistedOfRow(r)) && RepEvents(t, events) && LogInv(events)
    requires ManagedPlain(events) && FactsStoredFor(t, r)
    requires r.resulting == InFlight ==> DispatchedBy(events, s.identity, EntryOfRow(r))
    ensures Linked(events, s.identity, EntryOfRow(r))
  {
    hide IsDispatch, IsPreparation, RepEvents, LogInv, MatchesIdentity, TransitionFacts, IdentityLinks, EvidenceEquals,
         PlainLinks, SuccessfullyPrepared, FactsStoredFor;
    FactsInLog(t, events, r);
    LinksExact(events[r.eventSeq - 1], s.identity, r.attemptId);
  }

  lemma EntryLinked(t: Tables, row: OperationRow, s: Snapshot, j: nat)
    requires Stands(t, row, s) && j < |OpOf(t, row).log|
    requires RepEvents(t, TheEvents(t)) && LogInv(TheEvents(t)) && ManagedPlain(TheEvents(t)) && FactsStored(t)
    ensures Linked(TheEvents(t), row.identity, OpOf(t, row).log[j])
  {
    hide EventsOf, AttemptsOf, TransitionsOf, Describes, TransitionAccepted, RepEvents, LogInv, Linked, FactsStoredFor,
         DispatchedBy, RowOfOp, Legal, Attempts, DistinctIds, AttemptsAccepted, IsProposal, ManagedPlain, After,
         RecordOfRow;
    var rows := TransitionsOf(t, row.identity.actionId);
    RowsOfOp(t, row, s);
    TransitionsOfMembers(t, row.identity.actionId);
    if rows[j].resulting == InFlight {
      RecordedState(rows[j]);
      DispatchingEntry(t, row, s, j);
    }
    assert rows[j] in t.transitions;
    assert s.history[j] == PersistedOf(EntryOfRow(rows[j])) == PersistedOfRow(rows[j]);
    LinkedExactly(t, TheEvents(t), s, rows[j]);
  }

  lemma RecordedState(r: TransitionRow)
    ensures RecordOfRow(r).resulting == r.resulting
  {
  }

  lemma SeqsOfRows(t: Tables, row: OperationRow, s: Snapshot, j: nat)
    requires Stands(t, row, s) && SeqsIncrease(s) && j < |OpOf(t, row).log|
    ensures SeqBefore(OpOf(t, row), j) < OpOf(t, row).log[j].eventSeq
  {
    hide OpOf, Stands, RowOfOp, Legal, After, Attempts, DistinctIds;
    RowsOfOp(t, row, s);
    assert RisesAt(s, j);
    OpCreated(t, row);
  }

  lemma OpCreated(t: Tables, row: OperationRow)
    ensures OpOf(t, row).createdSeq == row.createdSeq
  {
  }

  lemma OpStands(t: Tables, row: OperationRow, s: Snapshot)
    requires Stands(t, row, s) && SeqsIncrease(s)
    requires RepEvents(t, TheEvents(t)) && LogInv(TheEvents(t)) && ManagedPlain(TheEvents(t)) && FactsStored(t)
    ensures OpInv(TheEvents(t), row.identity.actionId, OpOf(t, row))
  {
    var events := TheEvents(t);
    hide EventsOf, OpOf, Stands, RowOfOp, Legal, After, Attempts, DistinctIds, IsProposal, Linked, RepEvents, LogInv,
         ManagedPlain, FactsStored, SeqsIncrease, SeqBefore, EventAt, OpInv;
    var op := OpOf(t, row);
    OpCreated(t, row);
    Proposed(t, row, s);
    RowsOfOp(t, row, s);
    forall j | 0 <= j < |op.log|
      ensures Linked(events, row.identity, op.log[j]) && SeqBefore(op, j) < op.log[j].eventSeq
    {
      EntryLinked(t, row, s, j);
      SeqsOfRows(t, row, s, j);
    }
    OpAssembled(events, row.identity, op);
  }

  lemma OpAssembled(events: seq<Event>, id: Identity, op: LiveOp)
    requires Legal(id, op.log) && op.machine.identity == id && op.machine == After(id, op.log)
    requires IsProposal(EventAt(events, op.createdSeq), id)
    requires forall j | 0 <= j < |op.log| :: Linked(events, id, op.log[j]) && SeqBefore(op, j) < op.log[j].eventSeq
    ensures OpInv(events, id.actionId, op)
  {
    hide Legal, After, IsProposal, EventAt, Linked, SeqBefore;
  }

  lemma Proposed(t: Tables, row: OperationRow, s: Snapshot)
    requires Stands(t, row, s)
    ensures IsProposal(EventAt(TheEvents(t), row.createdSeq), row.identity)
  {
    hide EventsOf, Legal, After, Attempts, DistinctIds, IsProposal, AttemptsAccepted, TransitionsAccepted, AttemptsOf,
         TransitionsOf, EventAt;
  }

  /** Every operation read off the tables keeps the live invariant. */
  lemma OperationsStand(t: Tables, runId: string, a: string)
    requires Keyed(t) && Accepted(t, runId) && AsWritten(t) && a in OpsOf(t)
    ensures EventsOf(t).Ok? && OpInv(TheEvents(t), a, OpsOf(t)[a])
  {
    hide Accepted, EventsOf, Stands, OpInv, Snapshots, SnapshotOf, RepEvents, LogInv, ManagedPlain, FactsStoredFor,
         OpOf, SeqsIncrease, EventsInOrder, OperationsInOrder, TransitionsInOrder, AttemptsInOrder, EventsKeyed,
         TransitionsKeyed, AttemptsKeyed, OperationsKeyed, ManagedRowsPlain, IdsWithDispatches;
    var row := RowNamed(t, a);
    LogOfTables(t, runId);
    PlainLog(t, TheEvents(t));
    RowStands(t, runId, row);
    OpStands(t, row, TheSnapshot(t, row));
  }

  // ---------- Its listing, its attempts and the owners of its events ----------

  lemma ListedAction(t: Tables, a: string)
    requires a in OpsOf(t)
    ensures a in OrderOf(t)
  {
    hide OpOf;
    var i :| 0 <= i < |t.operations| && t.operations[i] == RowNamed(t, a);
    assert OrderOf(t)[i] == a;
  }

  lemma OrderStands(t: Tables)
    requires OperationsKeyed(t) && OperationsInOrder(t)
    ensures Ordered(OrderOf(t), OpsOf(t))
  {
    hide OpOf, OpsOf;
    var order, ops := OrderOf(t), OpsOf(t);
    forall i | 0 <= i < |order| ensures order[i] in ops && ops[order[i]].createdSeq == t.operations[i].createdSeq {
      OpNamed(t, t.operations[i]);
      OpCreated(t, t.operations[i]);
    }
    forall a | a in ops ensures a in order {
      ListedAction(t, a);
    }
  }

  /** The attempts an operation's machine holds are those of its attempt rows. */
  lemma AttemptsHeld(t: Tables, runId: string, a: string, x: string)
    requires Keyed(t) && Accepted(t, runId) && a in OpsOf(t)
    ensures x in OpsOf(t)[a].machine.attemptIds <==> exists r :: r in t.attempts && r.actionId == a && r.attemptId == x
  {
    hide Accepted, EventsOf, Stands, SnapshotOf, OpOf, AttemptsOf, RowOfOp, Legal, After, Attempts, DistinctIds, Keyed,
         PersistedOfLog, AttemptIds;
    var row := RowNamed(t, a);
    RowStands(t, runId, row);
    RowsOfOp(t, row, TheSnapshot(t, row));
    AttemptsOfMembers(t, a);
    if x in AttemptIds(AttemptsOf(t, a)) {
      var r := LedgerSimulation.IdOfRow(AttemptsOf(t, a), x);
      assert r in t.attempts;
    }
    forall r | r in t.attempts && r.actionId == a && r.attemptId == x ensures x in AttemptIds(AttemptsOf(t, a)) {
      LedgerSimulation.RowOfId(AttemptsOf(t, a), r);
    }
  }

  /** An issued attempt id is held by the one action its row belongs to. */
  lemma OneHolder(t: Tables, runId: string, x: string, a: string, b: string)
    requires Keyed(t) && Accepted(t, runId) && a in OpsOf(t) && b in OpsOf(t)
    requires x in OpsOf(t)[a].machine.attemptIds && x in OpsOf(t)[b].machine.attemptIds
    ensures a == b && x in IssuedIds(t)
  {
    hide Accepted, OpsOf, EventsKeyed, TransitionsKeyed, OperationsKeyed;
    AttemptsHeld(t, runId, a, x);
    AttemptsHeld(t, runId, b, x);
  }

  lemma HasHolder(t: Tables, runId: string, x: string) returns (a: string)
    requires Keyed(t) && Accepted(t, runId) && x in IssuedIds(t)
    ensures a in OpsOf(t) && x in OpsOf(t)[a].machine.attemptIds
  {
    hide Keyed, Accepted, OpsOf, HasOperation;
    var r :| r in t.attempts && r.attemptId == x;
    a := r.actionId;
    AttemptHasOperation(t, runId, r);
    NamedAction(t, a);
    AttemptsHeld(t, runId, a, x);
  }

  lemma AttemptsStand(t: Tables, runId: string)
    requires Keyed(t) && Accepted(t, runId) && EventsOf(t).Ok?
    ensures AttemptsInv(LiveOf(t, runId))
  {
    hide Keyed, Accepted, EventsOf, OpsOf, IssuedIds;
    var v := LiveOf(t, runId);
    forall a, b, x | a in v.ops && b in v.ops && x in v.ops[a].machine.attemptIds && x in v.ops[b].machine.attemptIds
      ensures a == b
    {
      OneHolder(t, runId, x, a, b);
    }
    forall a, x | a in v.ops && x in v.ops[a].machine.attemptIds ensures x in v.attempts {
      OneHolder(t, runId, x, a, a);
    }
    forall x | x in v.attempts ensures exists a :: a in v.ops && x in v.ops[a].machine.attemptIds {
      var a := HasHolder(t, runId, x);
      assert a in v.ops && x in v.ops[a].machine.attemptIds;
    }
  }

  lemma NamedAction(t: Tables, a: string)
    requires HasOperation(t, a)
    ensures a in OpsOf(t)
  {
    hide OpOf;
    var row := OperationOfAction(t, a);
    assert a in ActionsOf(t);
  }

  lemma TransitionOwned(t: Tables, row: OperationRow, s: Snapshot, r: TransitionRow)
    requires Stands(t, row, s) && r in t.transitions && r.actionId == row.identity.actionId
    ensures Owns(OpOf(t, row), r.eventSeq)
    ensures SuccessfullyPrepared(RecordOfRow(r)) ==> Owns(OpOf(t, row), r.eventSeq - 1)
  {
    hide Stands, TransitionsOf, After, SuccessfullyPrepared;
    var rows := TransitionsOf(t, row.identity.actionId);
    TransitionsOfMembers(t, row.identity.actionId);
    var j :| 0 <= j < |rows| && rows[j] == r;
    var e := OpOf(t, row).log[j];
    assert e == EntryOfRow(r);
    assert OwnsAt(e, r.eventSeq) && (SuccessfullyPrepared(RecordOfRow(r)) ==> OwnsAt(e, r.eventSeq - 1));
  }

  lemma AttemptOwned(t: Tables, row: OperationRow, s: Snapshot, r: AttemptRow)
    requires Stands(t, row, s) && r in t.attempts && r.actionId == row.identity.actionId
    ensures Owns(OpOf(t, row), r.dispatchSeq)
  {
    hide AttemptsOf, TransitionsOf, After, Legal, EventsOf, Attempts, DistinctIds, IsDispatch, IsTransition, IsProposal,
         HistoryByAttempt, TransitionAccepted, OrdinalsContiguous, OrdinalsCount;
    var a := row.identity.actionId;
    AttemptsOfMembers(t, a);
    var i :| 0 <= i < |AttemptsOf(t, a)| && AttemptsOf(t, a)[i] == r;
    assert AttemptRowAccepted(TheEvents(t), s, AttemptsOf(t, a)[i], i + 1);
    HistoryByAttemptMember(s.history, r.attemptId);
    var p := HistoryByAttempt(s.history, r.attemptId).value;
    var j :| 0 <= j < |s.history| && s.history[j] == p;
    assert PersistedOfRow(TransitionsOf(t, a)[j]) == p;
    assert OwnsAt(OpOf(t, row).log[j], r.dispatchSeq);
  }

  /** Every managed event is owned by the operation the accounting names. */
  lemma EventOwned(t: Tables, runId: string, i: nat)
    requires Keyed(t) && Accepted(t, runId) && EventsOf(t).Ok? && i < |TheEvents(t)| && Managed(TheEvents(t)[i].kind)
    ensures Owned(OpsOf(t), i + 1)
  {
    hide Accepted, EventsOf, Stands, SnapshotOf, OpOf, Owns, OpsOf, References, SuccessfullyPrepared, EventsKeyed,
         TransitionsKeyed, AttemptsKeyed, OperationsKeyed, MatchesIdentity, Snapshots;
    var e := TheEvents(t)[i];
    AcceptedLog(t, runId);
    var row := ManagedEventOwner(t, runId, e);
    ReferenceKind(t, runId, row, i + 1);
    RowStands(t, runId, row);
    OpNamed(t, row);
    OpCreated(t, row);
    var s := TheSnapshot(t, row);
    if e.kind == ActionProposed {
      LiveInvariant.OwnsCreated(OpOf(t, row));
    } else if e.kind == AttemptDispatched {
      var r :| r in t.attempts && r.actionId == row.identity.actionId && r.dispatchSeq == i + 1;
      AttemptOwned(t, row, s, r);
    } else if e.kind == StateTransition {
      var r :| r in t.transitions && r.actionId == row.identity.actionId && r.eventSeq == i + 1;
      TransitionOwned(t, row, s, r);
    } else {
      var r :| r in t.transitions && r.actionId == row.identity.actionId && SuccessfullyPrepared(RecordOfRow(r))
               && r.eventSeq - 1 == i + 1;
      TransitionOwned(t, row, s, r);
    }
  }

  /** The live ledger read off the tables keeps the invariant. */
  lemma LiveStands(t: Tables, runId: string)
    requires Keyed(t) && Accepted(t, runId) && AsWritten(t)
    ensures EventsOf(t).Ok? && Inv(LiveOf(t, runId))
  {
    hide Accepted, EventsOf, OpsOf, OpInv, Ordered, OrderOf, IssuedIds, LogInv, RepEvents, AttemptsInv, Owned,
         FactsStored, InSequence, EventsInOrder, OperationsInOrder, TransitionsInOrder, AttemptsInOrder, EventsKeyed,
         TransitionsKeyed, AttemptsKeyed, OperationsKeyed, ManagedRowsPlain, IdsWithDispatches;
    LogOfTables(t, runId);
    var v := LiveOf(t, runId);
    OrderStands(t);
    AttemptsStand(t, runId);
    forall a | a in v.ops ensures OpInv(v.events, a, v.ops[a]) {
      OperationsStand(t, runId, a);
    }
    forall i | 0 <= i < |v.events| && Managed(v.events[i].kind) ensures Owned(v.ops, i + 1) {
      EventOwned(t, runId, i);
    }
  }

  lemma IdsOfOp(t: Tables, a: string)
    requires IdsWithDispatches(t) && a in OpsOf(t)
    ensures IdsFit(OpsOf(t)[a].log)
  {
    hide IdFits, After, TransitionsOf;
    var rows := TransitionsOf(t, RowNamed(t, a).identity.actionId);
    TransitionsOfMembers(t, a);
    forall j | 0 <= j < |rows| ensures IdFits(EntriesOfRows(rows)[j].record) {
      assert rows[j] in t.transitions;
    }
  }

  lemma LiveWritable(t: Tables, runId: string)
    requires Accepted(t, runId) && AsWritten(t)
    ensures EventsOf(t).Ok? && Writable(LiveOf(t, runId))
  {
    hide Accepted, EventsOf, OpsOf, OrderOf, IssuedIds, RepEvents, FactsStored, LogInv, InSequence, ManagedPlain,
         OperationsInOrder, TransitionsInOrder, AttemptsInOrder, ManagedRowsPlain, IdsWithDispatches, IdsFit,
         EventsInOrder;
    LogOfTables(t, runId);
    PlainLog(t, TheEvents(t));
    forall a | a in OpsOf(t) ensures IdsFit(OpsOf(t)[a].log) {
      IdsOfOp(t, a);
    }
  }

  // ---------- The tables the recovered calls store ----------

  lemma OperationsAgree(t: Tables, u: Tables, runId: string)
    requires Keyed(t) && Accepted(t, runId) && RepOperations(u, OrderOf(t), OpsOf(t))
    ensures u.operations == t.operations
  {
    hide Accepted, OpsOf, Stands, SnapshotOf, Snapshots, OpOf, RowOfOp, EventsKeyed, TransitionsKeyed, AttemptsKeyed,
         OperationsKeyed;
    forall i | 0 <= i < |t.operations| ensures u.operations[i] == t.operations[i] {
      var row := t.operations[i];
      OpNamed(t, row);
      RowStands(t, runId, row);
      RowsOfOp(t, row, TheSnapshot(t, row));
      assert OrderOf(t)[i] == row.identity.actionId;
    }
  }

  lemma TransitionsAgree(t: Tables, u: Tables, runId: string, r: TransitionRow)
    requires Keyed(t) && Accepted(t, runId) && RepTransitions(u, OpsOf(t))
    ensures r in t.transitions <==> r in u.transitions
  {
    var a := r.actionId;
    TransitionsOfMembers(t, a);
    TransitionsWhereMembers(u.transitions, a);
    assert TransitionsWhere(u.transitions, a) == RowsOfLog(a, LogOf(OpsOf(t), a));
    hide Accepted, OpsOf, Stands, SnapshotOf, Snapshots, OpOf, TransitionsOf, TransitionsWhere, Keyed, RepTransitions;
    if a in OpsOf(t) {
      ActionStored(t, runId, a);
    } else if r in t.transitions {
      TransitionHasOperation(t, runId, r);
      NamedAction(t, a);
    }
  }

  lemma ActionStored(t: Tables, runId: string, a: string)
    requires Keyed(t) && Accepted(t, runId) && a in OpsOf(t)
    ensures RowsOfLog(a, OpsOf(t)[a].log) == TransitionsOf(t, a)
  {
    hide Accepted, Stands, SnapshotOf, Snapshots, OpOf, TransitionsOf, Keyed;
    var row := RowNamed(t, a);
    RowStands(t, runId, row);
    StoredLog(t, row, TheSnapshot(t, row));
  }

  lemma TransitionHasOperation(t: Tables, runId: string, r: TransitionRow)
    requires Accepted(t, runId) && r in t.transitions
    ensures HasOperation(t, r.actionId)
  {
    hide EventsOf, Snapshots, SnapshotAccepted, ActualManaged, ExpectedManaged;
    var i :| 0 <= i < |t.transitions| && t.transitions[i] == r;
  }

  /** Rows stored in strictly rising order are determined by which rows they are. */
  lemma RisingRows<T>(xs: seq<T>, ys: seq<T>, f: T -> int)
    requires forall i, j | 0 <= i < j < |xs| :: f(xs[i]) < f(xs[j])
    requires forall i, j | 0 <= i < j < |ys| :: f(ys[i]) < f(ys[j])
    requires forall x :: x in xs <==> x in ys
    ensures xs == ys
  {
    var ms := seq(|xs|, i requires 0 <= i < |xs| => f(xs[i]));
    var ns := seq(|ys|, i requires 0 <= i < |ys| => f(ys[i]));
    forall n ensures n in ms <==> n in ns {
      if n in ms {
        var i :| 0 <= i < |ms| && ms[i] == n;
        assert xs[i] in xs;
        var j :| 0 <= j < |ys| && ys[j] == xs[i];
        assert ns[j] == n;
      }
      if n in ns {
        var j :| 0 <= j < |ns| && ns[j] == n;
        assert ys[j] in ys;
        var i :| 0 <= i < |xs| && xs[i] == ys[j];
        assert ms[i] == n;
      }
    }
    AcceptedFold.RisingUnique(ms, ns);
    forall i | 0 <= i < |xs| ensures xs[i] == ys[i] {
      assert xs[i] in xs;
      var j :| 0 <= j < |ys| && ys[j] == xs[i];
      assert ns[j] == ms[i] == ns[i];
    }
    assert |xs| == |ms| && |ys| == |ns|;
  }

  lemma SourcesAgree(t: Tables, u: Tables, runId: string)
    requires Keyed(t) && Accepted(t, runId) && AsWritten(t) && EventsOf(t).Ok? && Rep(u, LiveOf(t, runId))
    ensures u.metadata == t.metadata && u.events == t.events && u.operations == t.operations
    ensures SameSources(t, u)
  {
    hide Keyed, Accepted, AsWritten, EventsOf, OpsOf, OrderOf, IssuedIds, RepEvents, RepOperations, RepTransitions,
         RepAttempts, LogInv;
    var v := LiveOf(t, runId);
    LogOfWritten(t, runId);
    LedgerSimulation.RepParts(u, v);
    SameRows(t, u, v.events);
    MetadataOfAccepted(t, u, runId);
    OperationsAgree(t, u, runId);
    forall r ensures r in t.transitions <==> r in u.transitions {
      TransitionsAgree(t, u, runId, r);
    }
  }

  lemma LogOfWritten(t: Tables, runId: string)
    requires Accepted(t, runId) && AsWritten(t)
    ensures EventsOf(t).Ok? && RepEvents(t, TheEvents(t))
  {
    hide Accepted, EventsOf, LogInv, RepEvents, EventsInOrder;
    LogOfTables(t, runId);
  }

  lemma SameRows(t: Tables, u: Tables, events: seq<Event>)
    requires RepEvents(t, events) && RepEvents(u, events)
    ensures t.events == u.events && EventsOf(t) == EventsOf(u)
  {
  }

  lemma MetadataOfAccepted(t: Tables, u: Tables, runId: string)
    requires Accepted(t, runId) && MetadataAccepted(u, runId)
    ensures u.metadata == t.metadata
  {
    hide EventsOf, Snapshots, SnapshotAccepted, ActualManaged, ExpectedManaged, ForeignKeysHold;
  }

  lemma StoredAgain(t: Tables, u: Tables, runId: string)
    requires Keyed(t) && Accepted(t, runId) && AsWritten(t) && EventsOf(t).Ok? && Rep(u, LiveOf(t, runId))
    requires Keyed(u) && Accepted(u, runId) && StoredInOrder(u)
    ensures u == t
  {
    hide Keyed, Accepted, EventsOf, LiveOf, Rep, SameSources, FactsStored, InSequence, ManagedRowsPlain,
         IdsWithDispatches;
    SourcesAgree(t, u, runId);
    assert SameTransitions(t, u) by { SourceTransitions(t, u); }
    DerivedDataDetermined(t, u, runId);
    RisingRows(t.transitions, u.transitions, TransitionSeq);
    RisingRows(t.attempts, u.attempts, DispatchSeq);
  }

  ghost predicate SameTransitions(t: Tables, u: Tables) {
    forall r :: r in t.transitions <==> r in u.transitions
  }

  lemma SourceTransitions(t: Tables, u: Tables)
    requires SameSources(t, u)
    ensures SameTransitions(t, u)
  {
  }

  /** Tables that are keyed, accepted and as written are what some sequence of calls on
      the fresh ledger of their run leaves. */
  lemma CallsThatWrote(t: Tables, runId: string) returns (calls: seq<Call>)
    requires Keyed(t) && Accepted(t, runId) && AsWritten(t)
    ensures Run(Create(runId), calls).0.tables == t
  {
    hide Keyed, Accepted, AsWritten, EventsOf, LiveOf, Rep, Inv, Writable, Run, Create, LedgerReachable.LiveRun, Empty,
         OrderInv, StoredInOrder;
    LiveStands(t, runId);
    LiveWritable(t, runId);
    var v := LiveOf(t, runId);
    assert v.runId == runId by { RunOfLive(t, runId); }
    calls := CallsTo(v);
    var w := LedgerReachable.Reached(runId, calls);
    ReachableAsWritten(runId, calls);
    WrittenInOrder(Run(Create(runId), calls).0.tables);
    StoredAgain(t, Run(Create(runId), calls).0.tables, runId);
  }

  lemma RunOfLive(t: Tables, runId: string)
    requires EventsOf(t).Ok?
    ensures LiveOf(t, runId).runId == runId
  {
    hide EventsOf;
  }

  lemma WrittenInOrder(t: Tables)
    requires AsWritten(t)
    ensures StoredInOrder(t)
  {
    hide StoredInOrder, FactsStored, InSequence, ManagedRowsPlain, IdsWithDispatches;
  }

  /** Tables are reachable, on a fresh ledger of that run id, if and only if they are
      keyed, accepted and hold nothing no call writes. */
  lemma ReachableExactly(t: Tables, runId: string)
    ensures (exists calls: seq<Call> :: Run(Create(runId), calls).0.tables == t)
            <==> Keyed(t) && Accepted(t, runId) && AsWritten(t)
  {
    hide Keyed, Accepted, AsWritten, Run, Create;
    if calls: seq<Call> :| Run(Create(runId), calls).0.tables == t {
      ReachableAsWritten(runId, calls);
    }
    if Keyed(t) && Accepted(t, runId) && AsWritten(t) {
      var calls := CallsThatWrote(t, runId);
    }
  }
}
