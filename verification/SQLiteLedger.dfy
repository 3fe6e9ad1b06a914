/** The ledger as the program runs it: one object over five tables, a fresh machine per
    call driven by the stored rows, and a transaction around every write. Each method is
    proved to do what `LedgerProtocol.Perform` says, on any tables. */
module SQLiteLedgers {
  import opened Wrappers
  import opened StateMachine
  import opened Contracts
  import opened LedgerTables
  import opened LedgerCalls
  import opened LedgerChecker
  import opened LedgerProtocol

  lemma {:induction false} ReplayStops(id: Identity, rows: seq<TransitionRow>, k: nat)
    requires k <= |rows| && Replay(id, rows[..k]).Err?
    ensures Replay(id, rows) == Err(Integrity)
    decreases |rows|
  {
    ReplayExact(id, rows);
    ReplayExact(id, rows[..k]);
    if k < |rows| {
      hide ReplayRow;
      assert rows[..|rows| - 1][..k] == rows[..k];
      ReplayStops(id, rows[..|rows| - 1], k);
    } else {
      assert rows[..k] == rows;
    }
  }

  /** Replaying one row more. */
  lemma ReplayNext(id: Identity, rows: seq<TransitionRow>, i: nat, m: Machine, persisted: seq<Persisted>)
    requires i < |rows| && Replay(id, rows[..i]) == Ok((m, persisted))
    ensures var row := rows[i];
            var step := TakeStep(m, row.attempted, row.evidence, row.candidate, row.attemptId);
            Replay(id, rows[..i + 1]) ==
              if row.ordinal != i + 1 || !ValidEvidenceId(row.evidence.evidenceId)
                 || |step.machine.history| != |m.history| + 1 || step.record != RecordOfRow(row)
              then Err(Integrity) else Ok((step.machine, persisted + [PersistedOfRow(row)]))
  {
    hide TakeStep, ValidEvidenceId;
    assert rows[..i + 1][..i] == rows[..i];
  }

  lemma {:induction false} EventsStop(rows: seq<EventRow>, k: nat, error: LedgerError)
    requires k <= |rows| && EventsOfRows(rows[..k]) == Err(error)
    ensures EventsOfRows(rows) == Err(error)
    decreases |rows|
  {
    hide EventFromRow;
    if k < |rows| {
      assert rows[..|rows| - 1][..k] == rows[..k];
      EventsStop(rows[..|rows| - 1], k, error);
    } else {
      assert rows[..k] == rows;
    }
  }

  lemma {:induction false} SnapshotsStop(t: Tables, rows: seq<OperationRow>, k: nat, error: LedgerError)
    requires k <= |rows| && SnapshotsOfRows(t, rows[..k]) == Err(error)
    ensures SnapshotsOfRows(t, rows) == Err(error)
    decreases |rows|
  {
    hide SnapshotOf;
    if k < |rows| {
      assert rows[..|rows| - 1][..k] == rows[..k];
      SnapshotsStop(t, rows[..|rows| - 1], k, error);
    } else {
      assert rows[..k] == rows;
    }
  }

  /** Reading one operation more. */
  lemma SnapshotsNext(t: Tables, rows: seq<OperationRow>, i: nat)
    requires i < |rows| && SnapshotsOfRows(t, rows[..i]).Ok?
    ensures SnapshotsOfRows(t, rows[..i + 1]) ==
              match SnapshotOf(t, rows[i].identity.actionId)
              case Ok(s) => Ok(SnapshotsOfRows(t, rows[..i]).value + [s])
              case Err(error) => Err(error)
  {
    hide SnapshotOf;
    assert rows[..i + 1][..i] == rows[..i];
  }

  lemma ExpectedGrows(t: Tables, snapshots: seq<Snapshot>, s: Snapshot)
    ensures ExpectedManaged(t, snapshots + [s]) == ExpectedManaged(t, snapshots) + References(t, s)
  {
    hide References;
    var more := snapshots + [s];
    assert more[|snapshots|] == s && s in more;
    forall n ensures n in ExpectedManaged(t, more) <==> n in ExpectedManaged(t, snapshots) || n in References(t, s) {
      if n in ExpectedManaged(t, snapshots) {
        var x :| x in snapshots && n in References(t, x);
        assert x in more;
      }
    }
  }

  class SQLiteLedger {
    var runId: string
    var closed: bool
    var metadata: seq<MetadataRow>
    var events: seq<EventRow>
    var operations: seq<OperationRow>
    var transitions: seq<TransitionRow>
    var attempts: seq<AttemptRow>

    function Stored(): Tables
      reads this
    {
      Tables(metadata, events, operations, transitions, attempts)
    }

    function Value(): Ledger
      reads this
    {
      Ledger(runId, closed, Stored())
    }

    constructor (runId: string)
      ensures Value() == Create(runId)
      ensures metadata == [MetadataRow(1, "0.1", runId)]
      ensures events == [] && operations == [] && transitions == [] && attempts == []
    {
      this.runId, closed := runId, false;
      metadata := [MetadataRow(LEDGER_SCHEMA_VERSION, CONTRACT_SCHEMA_VERSION, runId)];
      events, operations, transitions, attempts := [], [], [], [];
    }

    // ---------- Transactions ----------

    /** ROLLBACK: the tables as they were at BEGIN. */
    method Rollback(saved: Tables)
      modifies this
      ensures Value() == old(Value()).(tables := saved)
    {
      metadata, events, operations := saved.metadata, saved.events, saved.operations;
      transitions, attempts := saved.transitions, saved.attempts;
    }

    // ---------- Reading ----------

    method ReadEvents() returns (r: Result<seq<Event>, LedgerError>)
      ensures r == EventsOf(Stored())
    {
      var rows := OrderedEvents(Stored());
      var read: seq<Event> := [];
      var i := 0;
      while i < |rows|
        invariant 0 <= i <= |rows|
        invariant EventsOfRows(rows[..i]) == Ok(read)
      {
        hide EventFromRow;
        assert rows[..i + 1][..i] == rows[..i];
        match EventFromRow(rows[i]) {
          case Err(error) =>
            EventsStop(rows, i + 1, error);
            return Err(error);
          case Ok(e) => read := read + [e];
        }
        i := i + 1;
      }
      assert rows[..i] == rows;
      return Ok(read);
    }

    /** Rebuild an action's machine by taking every stored step again. */
    method ReplayRows(id: Identity, rows: seq<TransitionRow>)
      returns (r: Result<(OperationStateMachine, seq<Persisted>), LedgerError>)
      ensures r.Err? ==> Replay(id, rows) == Err(r.error)
      ensures r.Ok? ==> fresh(r.value.0) && Replay(id, rows) == Ok((r.value.0.Value(), r.value.1))
    {
      var machine := new OperationStateMachine(id);
      var persisted: seq<Persisted> := [];
      var i := 0;
      while i < |rows|
        invariant 0 <= i <= |rows| && fresh(machine)
        invariant Replay(id, rows[..i]) == Ok((machine.Value(), persisted))
        modifies machine
      {
        hide TakeStep, ValidEvidenceId, Replay;
        var row := rows[i];
        ReplayNext(id, rows, i, machine.Value(), persisted);
        if row.ordinal != i + 1 || !ValidEvidenceId(row.evidence.evidenceId) {
          ReplayStops(id, rows, i + 1);
          return Err(Integrity);
        }
        var historyLength := |machine.history|;
        var outcome := machine.Transition(row.attempted, row.evidence, row.candidate, row.attemptId);
        var actual := if outcome.Ok? then outcome.value else outcome.error;
        if |machine.history| != historyLength + 1 || actual != RecordOfRow(row) {
          ReplayStops(id, rows, i + 1);
          return Err(Integrity);
        }
        persisted := persisted + [PersistedOfRow(row)];
        i := i + 1;
      }
      assert rows[..i] == rows;
      return Ok((machine, persisted));
    }

    method Load(a: string) returns (r: Result<(OperationStateMachine, seq<Persisted>), LedgerError>)
      ensures r.Err? ==> LoadMachine(Stored(), a) == Err(r.error)
      ensures r.Ok? ==> fresh(r.value.0) && LoadMachine(Stored(), a) == Ok((r.value.0.Value(), r.value.1))
    {
      hide Replay, TransitionsOf, AttemptsOf;
      var found := FindOperation(operations, a);
      if found.None? {
        return Err(OperationNotFound);
      }
      var replayed := ReplayRows(found.value.identity, TransitionsOf(Stored(), a));
      if replayed.Err? {
        return replayed;
      }
      var (machine, persisted) := replayed.value;
      var rows := AttemptsOf(Stored(), a);
      if machine.state != found.value.state {
        return Err(Integrity);
      }
      if exists i | 0 <= i < |rows| :: !ValidAttemptId(rows[i].attemptId) {
        return Err(Integrity);
      }
      if !OrdinalsContiguous(rows) || AttemptIds(rows) != machine.attemptIds {
        return Err(Integrity);
      }
      return Ok((machine, persisted));
    }

    method ReadOperation(a: string) returns (r: Result<Snapshot, LedgerError>)
      ensures r == SnapshotOf(Stored(), a)
    {
      hide LoadMachine;
      var loaded := Load(a);
      if loaded.Err? {
        return Err(loaded.error);
      }
      var (machine, persisted) := loaded.value;
      match FindOperation(operations, a) {
        case None => return Err(OperationNotFound);
        case Some(row) =>
          return Ok(Snapshot(machine.identity, machine.state, row.createdSeq, row.updatedSeq, machine.attemptIds,
                             persisted));
      }
    }

    method ReadOperations() returns (r: Result<seq<Snapshot>, LedgerError>)
      ensures r == Snapshots(Stored())
    {
      var rows := OrderedOperations(Stored());
      var read: seq<Snapshot> := [];
      var i := 0;
      while i < |rows|
        invariant 0 <= i <= |rows|
        invariant SnapshotsOfRows(Stored(), rows[..i]) == Ok(read)
      {
        hide SnapshotOf, SnapshotsOfRows;
        SnapshotsNext(Stored(), rows, i);
        var snapshot := ReadOperation(rows[i].identity.actionId);
        if snapshot.Err? {
          SnapshotsStop(Stored(), rows, i + 1, snapshot.error);
          return Err(snapshot.error);
        }
        read := read + [snapshot.value];
        i := i + 1;
      }
      assert rows[..i] == rows;
      return Ok(read);
    }

    // ---------- Writing inside a transaction ----------

    method Insert(e: Event) returns (r: Option<LedgerError>)
      modifies this`events
      ensures InsertEvent(old(Stored()), e) == if r.None? then Ok(Stored()) else Err(r.value)
    {
      var latest := LatestEvent(Stored());
      if !ValidEvent(e) {
        return Some(InvalidArgument);
      }
      if e.seqNo != NextSeq(Stored()) {
        return Some(EventSequence);
      }
      if latest.Some? && e.tick < latest.value.tick {
        return Some(EventSequence);
      }
      if HasEvent(Stored(), e.seqNo) {
        return Some(EventSequence);
      }
      events := events + [RowOfEvent(e)];
      return None;
    }

    method Persist(id: Identity, candidate: Identity, record: Record, e: Evidence, tick: nat)
      returns (r: Result<Persisted, LedgerError>)
      modifies this`events, this`transitions, this`operations
      ensures match r
              case Ok(p) => PersistStep(old(Stored()), id, candidate, record, e, tick) == Ok((Stored(), p))
              case Err(error) => PersistStep(old(Stored()), id, candidate, record, e, tick) == Err(error)
    {
      hide InsertEvent, NextSeq, TransitionFacts, NextOrdinal, HasEvent, HasOperation;
      if SuccessfullyPrepared(record) {
        var prepared := Insert(Event(NextSeq(Stored()), tick, OperationPrepared, IdentityLinks(id, None), map[]));
        if prepared.Some? {
          return Err(prepared.value);
        }
      }
      var eventSeq := NextSeq(Stored());
      var logged := Insert(Event(eventSeq, tick, StateTransition, IdentityLinks(id, record.attemptId),
                                 TransitionFacts(record, e)));
      if logged.Some? {
        return Err(logged.value);
      }
      var row := RowOfStep(id.actionId, NextOrdinal(Stored(), id.actionId), eventSeq, candidate, record, e);
      match InsertTransitionRow(Stored(), row) {
        case Err(error) => return Err(error);
        case Ok(stored) => transitions := stored.transitions;
      }
      operations := UpdateOperation(operations, id.actionId, record.resulting, eventSeq);
      return Ok(Persisted(record, e, eventSeq));
    }

    // ---------- Public calls ----------

    method AppendEvent(e: Event) returns (r: Result<Event, LedgerError>)
      modifies this
      ensures (Value(), if r.Ok? then Appended(r.value) else Refused(r.error)) == Perform(old(Value()), AppendCall(e))
    {
      hide InsertEvent, ValidEvent;
      if closed {
        return Err(ClosedLedger);
      }
      if !ValidEvent(e) {
        return Err(InvalidArgument);
      }
      if Managed(e.kind) {
        return Err(ManagedEvent);
      }
      var saved := Stored();
      var inserted := Insert(e);
      if inserted.Some? {
        Rollback(saved);
        return Err(inserted.value);
      }
      return Ok(e);
    }

    method RegisterOperation(id: Identity, tick: nat) returns (r: Result<Snapshot, LedgerError>)
      modifies this
      ensures (Value(), if r.Ok? then Registered(r.value) else Refused(r.error))
                == Perform(old(Value()), RegisterCall(id, tick))
    {
      hide InsertEvent, NextSeq, SnapshotOf, HasOperation, HasEvent;
      if closed {
        return Err(ClosedLedger);
      }
      var saved := Stored();
      if HasOperation(saved, id.actionId) {
        return Err(DuplicateOperation);
      }
      var eventSeq := NextSeq(saved);
      var logged := Insert(Event(eventSeq, tick, ActionProposed, IdentityLinks(id, None), map[]));
      if logged.Some? {
        Rollback(saved);
        return Err(logged.value);
      }
      match InsertOperationRow(Stored(), OperationRow(id, Proposed, eventSeq, eventSeq)) {
        case Err(error) =>
          Rollback(saved);
          return Err(error);
        case Ok(stored) => operations := stored.operations;
      }
      var snapshot := ReadOperation(id.actionId);
      if snapshot.Err? {
        Rollback(saved);
      }
      return snapshot;
    }

    method MakeTransition(a: string, target: State, e: Evidence, candidate: Identity, tick: nat)
      returns (r: Result<Persisted, LedgerError>)
      modifies this
      ensures (Value(), if r.Ok? then Moved(r.value) else Refused(r.error))
           == Perform(old(Value()), TransitionCall(a, target, e, candidate, tick))
    {
      hide LoadMachine, TakeStep, PersistStep, ValidEvidenceId;
      if closed {
        return Err(ClosedLedger);
      }
      if !ValidEvidenceId(e.evidenceId) {
        return Err(InvalidArgument);
      }
      if target == InFlight {
        return Err(DispatchRequired);
      }
      var saved := Stored();
      var loaded := Load(a);
      if loaded.Err? {
        return Err(loaded.error);
      }
      var machine := loaded.value.0;
      var historyLength := |machine.history|;
      var outcome := machine.Transition(target, e, candidate, None);
      var record := if outcome.Ok? then outcome.value else outcome.error;
      if |machine.history| == historyLength {
        return Err(InvalidTransition(record));
      }
      var persisted := Persist(machine.identity, candidate, record, e, tick);
      if persisted.Err? {
        Rollback(saved);
        return Err(persisted.error);
      }
      return if outcome.Ok? then persisted else Err(InvalidTransition(record));
    }

    method RecordDispatch(a: string, attemptId: string, e: Evidence, candidate: Identity, tick: nat)
      returns (r: Result<Permit, LedgerError>)
      modifies this
      ensures (Value(), if r.Ok? then Permitted(r.value) else Refused(r.error))
           == Perform(old(Value()), DispatchCall(a, attemptId, e, candidate, tick))
    {
      hide LoadMachine, TakeStep, PersistStep, ValidEvidenceId, ValidAttemptId, InsertEvent, NextSeq, InsertAttemptRow;
      if closed {
        return Err(ClosedLedger);
      }
      if !ValidAttemptId(attemptId) || !ValidEvidenceId(e.evidenceId) {
        return Err(InvalidArgument);
      }
      var saved := Stored();
      var loaded := Load(a);
      if loaded.Err? {
        return Err(loaded.error);
      }
      var machine := loaded.value.0;
      var historyLength := |machine.history|;
      var outcome := machine.Transition(InFlight, e, candidate, Some(attemptId));
      var record := if outcome.Ok? then outcome.value else outcome.error;
      if |machine.history| == historyLength {
        return Err(InvalidTransition(record));
      }
      if outcome.Err? {
        var violated := Persist(machine.identity, candidate, record, e, tick);
        if violated.Err? {
          Rollback(saved);
          return Err(violated.error);
        }
        return Err(InvalidTransition(record));
      }
      var dispatchSeq := NextSeq(Stored());
      var dispatched :=
        Insert(Event(dispatchSeq, tick, AttemptDispatched, IdentityLinks(machine.identity, Some(attemptId)), map[]));
      if dispatched.Some? {
        Rollback(saved);
        return Err(dispatched.value);
      }
      var persisted := Persist(machine.identity, candidate, record, e, tick);
      if persisted.Err? {
        Rollback(saved);
        return Err(persisted.error);
      }
      var row := AttemptRow(attemptId, machine.identity.actionId, |machine.attemptIds|, dispatchSeq,
                            persisted.value.eventSeq);
      match InsertAttemptRow(Stored(), row) {
        case Err(_) =>
          Rollback(saved);
          return Err(Integrity);
        case Ok(stored) => AttemptOnly(Stored(), row); attempts := stored.attempts;
      }
      return Ok(Permit(runId, machine.identity.actionId, attemptId, dispatchSeq, persisted.value.eventSeq));
    }

    static lemma AttemptOnly(t: Tables, row: AttemptRow)
      requires InsertAttemptRow(t, row).Ok?
      ensures InsertAttemptRow(t, row).value == t.(attempts := InsertAttemptRow(t, row).value.attempts)
    {
    }

    // ---------- The checker ----------

    method CheckAttempts(log: seq<Event>, s: Snapshot) returns (r: Option<set<int>>)
      ensures var rows := AttemptsOf(Stored(), s.identity.actionId);
              r == if AttemptsAccepted(log, s, rows) then Some(AttemptReferences(rows)) else None
    {
      var rows := AttemptsOf(Stored(), s.identity.actionId);
      hide AttemptRowAccepted, AttemptsOf;
      var referenced: set<int> := {};
      var i := 0;
      while i < |rows|
        invariant 0 <= i <= |rows|
        invariant forall j | 0 <= j < i :: AttemptRowAccepted(log, s, rows[j], j + 1)
        invariant referenced == AttemptReferences(rows[..i])
      {
        if !AttemptRowAccepted(log, s, rows[i], i + 1) {
          return None;
        }
        assert rows[..i + 1] == rows[..i] + [rows[i]];
        referenced := referenced + {rows[i].dispatchSeq, rows[i].transitionSeq};
        i := i + 1;
      }
      assert rows[..i] == rows;
      return Some(referenced);
    }

    method CheckTransitions(log: seq<Event>, s: Snapshot) returns (r: Option<set<int>>)
      ensures r == if TransitionsAccepted(log, s) then Some(TransitionReferences(s.history)) else None
    {
      hide TransitionAccepted;
      var referenced: set<int> := {};
      var i := 0;
      while i < |s.history|
        invariant 0 <= i <= |s.history|
        invariant forall j | 0 <= j < i :: TransitionAccepted(log, s, s.history[j])
        invariant referenced == TransitionReferences(s.history[..i])
      {
        var p := s.history[i];
        if !TransitionAccepted(log, s, p) {
          return None;
        }
        assert s.history[..i + 1] == s.history[..i] + [p];
        referenced := referenced + {p.eventSeq};
        if SuccessfullyPrepared(p.record) {
          referenced := referenced + {p.eventSeq - 1};
        }
        i := i + 1;
      }
      assert s.history[..i] == s.history;
      return Some(referenced);
    }

    /** The references of one operation, if its rows and events agree. */
    method CheckSnapshot(log: seq<Event>, s: Snapshot) returns (r: Option<set<int>>)
      ensures r == if SnapshotAccepted(Stored(), log, s) then Some(References(Stored(), s)) else None
    {
      hide AttemptsAccepted, TransitionsAccepted, AttemptsOf, AttemptReferences, TransitionReferences;
      if !IsProposal(EventAt(log, s.createdSeq), s.identity) || s.updatedSeq != LastSeq(s) {
        return None;
      }
      var fromAttempts := CheckAttempts(log, s);
      if fromAttempts.None? {
        return None;
      }
      var fromTransitions := CheckTransitions(log, s);
      if fromTransitions.None? {
        return None;
      }
      return Some({s.createdSeq} + fromAttempts.value + fromTransitions.value);
    }

    method ValidateContents(claimed: string) returns (accepted: bool)
      ensures accepted == Accepted(Stored(), claimed)
    {
      hide ForeignKeysHold, EventsOf, Snapshots, SnapshotAccepted, References, ActualManaged;
      if !ForeignKeysHold(Stored()) || !MetadataAccepted(Stored(), claimed) {
        return false;
      }
      var readLog := ReadEvents();
      if readLog.Err? {
        return false;
      }
      var log := readLog.value;
      if !Contiguous(log) || !TicksOrdered(log) {
        return false;
      }
      var readSnapshots := ReadOperations();
      if readSnapshots.Err? {
        return false;
      }
      var snapshots := readSnapshots.value;
      var expected: set<int> := {};
      var i := 0;
      while i < |snapshots|
        invariant 0 <= i <= |snapshots|
        invariant forall j | 0 <= j < i :: SnapshotAccepted(Stored(), log, snapshots[j])
        invariant expected == ExpectedManaged(Stored(), snapshots[..i])
      {
        var references := CheckSnapshot(log, snapshots[i]);
        if references.None? {
          assert snapshots[i] in snapshots;
          return false;
        }
        assert snapshots[..i + 1] == snapshots[..i] + [snapshots[i]];
        ExpectedGrows(Stored(), snapshots[..i], snapshots[i]);
        expected := expected + references.value;
        i := i + 1;
      }
      assert snapshots[..i] == snapshots;
      return ActualManaged(log) == expected;
    }

    method Validate() returns (r: Option<LedgerError>)
      ensures (Value(), if r.None? then Done else Refused(r.value)) == Perform(Value(), ValidateCall)
    {
      hide Accepted;
      if closed {
        return Some(ClosedLedger);
      }
      var accepted := ValidateContents(runId);
      return if accepted then None else Some(Integrity);
    }

    method NextEventSeq() returns (r: Result<int, LedgerError>)
      ensures (Value(), if r.Ok? then Sequence(r.value) else Refused(r.error)) == Perform(Value(), NextSeqCall)
    {
      hide Accepted, NextSeq;
      return if closed then Err(ClosedLedger) else Ok(NextSeq(Stored()));
    }

    method Events() returns (r: Result<seq<Event>, LedgerError>)
      ensures (Value(), if r.Ok? then Log(r.value) else Refused(r.error)) == Perform(Value(), EventsCall)
    {
      hide Accepted, EventsOf;
      if closed {
        return Err(ClosedLedger);
      }
      r := ReadEvents();
    }

    method GetOperation(a: string) returns (r: Result<Snapshot, LedgerError>)
      ensures (Value(), if r.Ok? then Operation(r.value) else Refused(r.error)) == Perform(Value(), OperationCall(a))
    {
      hide Accepted, SnapshotOf;
      if closed {
        return Err(ClosedLedger);
      }
      r := ReadOperation(a);
    }

    method ListOperations() returns (r: Result<seq<Snapshot>, LedgerError>)
      ensures (Value(), if r.Ok? then Operations(r.value) else Refused(r.error)) == Perform(Value(), OperationsCall)
    {
      hide Accepted, Snapshots;
      if closed {
        return Err(ClosedLedger);
      }
      r := ReadOperations();
    }

    method Close()
      modifies this`closed
      ensures (Value(), Done) == Perform(old(Value()), CloseCall)
    {
      hide Accepted;
      closed := true;
    }

    /** A new handle on the stored tables, kept only if they validate. */
    method Reopen(claimed: string) returns (r: Option<LedgerError>)
      modifies this`runId, this`closed
      ensures (Value(), if r.None? then Done else Refused(r.value)) == Perform(old(Value()), ReopenCall(claimed))
    {
      hide Accepted;
      var accepted := ValidateContents(claimed);
      if !accepted {
        closed := true;
        return Some(Integrity);
      }
      runId, closed := claimed, false;
      return None;
    }
  }
}
