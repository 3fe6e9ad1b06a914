/** Every reachable ledger is accepted by the checker and answers like the live one. */
module LedgerReachable {
  import opened Wrappers
  import opened StateMachine
  import opened Histories
  import opened Contracts
  import opened LedgerTables
  import opened LedgerCalls
  import opened LedgerChecker
  import opened LedgerProtocol
  import opened LiveLedger
  import opened LiveInvariant
  import opened LedgerRefinement
  import opened LedgerSimulation

  // ---------- The checks of one operation ----------

  /** The history lookup by attempt id finds the entry behind an attempt row. */
  lemma {:induction false} LookupFindsEntry(id: Identity, a: string, log: seq<Entry>, r: AttemptRow)
    requires Legal(id, log) && DistinctIds(Attempts(log)) && r in AttemptRowsOfLog(a, log)
    ensures var p := HistoryByAttempt(PersistedOfLog(log), r.attemptId);
            p.Some? && p.value.eventSeq == r.transitionSeq && p.value.record.resulting == InFlight
  {
    hide ValidAttemptId, GuardHolds, NormativeCause;
    var n := |log| - 1;
    var init, last := log[..n], log[n];
    assert PersistedOfLog(log)[..n] == PersistedOfLog(init);
    Shape(id, log, n);
    if r in AttemptRowsOfLog(a, init) {
      LegalPrefix(id, log, n);
      assert Attempts(init) <= Attempts(log);
      assert DistinctIds(Attempts(init));
      LookupFindsEntry(id, a, init, r);
      AttemptRowsCount(a, init);
      var rows := AttemptRowsOfLog(a, init);
      var i :| 0 <= i < |rows| && rows[i] == r;
      assert Attempts(init)[i] == AttemptIds(rows)[i] == r.attemptId;
      if last.record.resulting == InFlight {
        assert Attempts(log)[|Attempts(init)|] == last.record.attemptId.value;
      }
    }
  }

  /** An entry into IN_FLIGHT has its attempt row. */
  lemma {:induction false} EntryHasRow(a: string, log: seq<Entry>, j: nat) returns (r: AttemptRow)
    requires j < |log| && log[j].record.resulting == InFlight && log[j].record.attemptId.Some?
    ensures r in AttemptRowsOfLog(a, log) && r.attemptId == log[j].record.attemptId.value
    ensures r.dispatchSeq == log[j].eventSeq - 1 && r.transitionSeq == log[j].eventSeq
  {
    var n := |log| - 1;
    var before := AttemptRowsOfLog(a, log[..n]);
    if j < n {
      r := EntryHasRow(a, log[..n], j);
    } else {
      r := AttemptRow(log[n].record.attemptId.value, a, |before| + 1, log[n].eventSeq - 1, log[n].eventSeq);
      assert AttemptRowsOfLog(a, log)[|before|] == r;
    }
  }

  /** The attempt row of an entry names the entry's two events. */
  lemma RowOfEntry(events: seq<Event>, id: Identity, e: Entry, r: AttemptRow)
    requires Linked(events, id, e) && e.record.resulting == InFlight && e.record.attemptId == Some(r.attemptId)
    requires r.transitionSeq == e.eventSeq && r.dispatchSeq == e.eventSeq - 1
    ensures IsDispatch(EventAt(events, r.dispatchSeq), id, r.attemptId)
    ensures IsTransition(EventAt(events, r.transitionSeq), id, Some(r.attemptId))
    ensures EventAt(events, r.transitionSeq).value.tick == EventAt(events, r.dispatchSeq).value.tick
  {
    hide TransitionFacts, MatchesIdentity, EventAt, IsPreparation, SuccessfullyPrepared, IdentityLinks;
    LinksMatch(id, e.record.attemptId);
    LinksKeepAttempt(id, e.record.attemptId);
  }

  lemma LinksKeepAttempt(id: Identity, attemptId: Option<string>)
    ensures IdentityLinks(id, attemptId).attemptId == attemptId
  {
  }

  lemma AttemptRowAcceptedLive(events: seq<Event>, a: string, op: LiveOp, i: nat)
    requires OpInv(events, a, op) && i < |AttemptRowsOfLog(a, op.log)|
    ensures AttemptRowAccepted(events, SnapshotOfLive(op), AttemptRowsOfLog(a, op.log)[i], i + 1)
  {
    hide Legal, After, HistoryByAttempt, Linked, IsDispatch, IsTransition, EventAt, IsProposal, SeqBefore,
         AttemptRowsOfLog, DistinctIds, Attempts, PersistedOfLog;
    var id := op.machine.identity;
    var r := AttemptRowsOfLog(a, op.log)[i];
    MachineOfLegal(id, op.log);
    LookupFindsEntry(id, a, op.log, r);
    AttemptRowsCount(a, op.log);
    AttemptRowEntry(a, op.log, r);
    var j :| 0 <= j < |op.log| && op.log[j].record.resulting == InFlight
             && op.log[j].record.attemptId == Some(r.attemptId) && r.transitionSeq == op.log[j].eventSeq
             && r.dispatchSeq == op.log[j].eventSeq - 1;
    RowOfEntry(events, id, op.log[j], r);
  }

  lemma TransitionAcceptedLive(events: seq<Event>, a: string, op: LiveOp, j: nat)
    requires OpInv(events, a, op) && j < |op.log|
    ensures TransitionAccepted(events, SnapshotOfLive(op), PersistedOf(op.log[j]))
  {
    hide Legal, After, Linked, TransitionAccepted, IsProposal, IsDispatch;
    LinkedAccepted(events, SnapshotOfLive(op), op.log[j]);
  }

  lemma LinkedAccepted(events: seq<Event>, s: Snapshot, e: Entry)
    requires Linked(events, s.identity, e)
    ensures TransitionAccepted(events, s, PersistedOf(e))
  {
    hide TransitionFacts, EvidenceEquals, EventAt, IsPreparation, SuccessfullyPrepared, IsDispatch, MatchesIdentity,
         IdentityLinks;
    LinksMatch(s.identity, e.record.attemptId);
    LinksKeepAttempt(s.identity, e.record.attemptId);
    EvidenceEqualsSelf(TransitionFacts(e.record, e.evidence));
  }

  lemma LinksMatch(id: Identity, attemptId: Option<string>)
    ensures forall e: Event | e.links == IdentityLinks(id, attemptId) :: MatchesIdentity(e, id)
  {
  }

  lemma EvidenceEqualsSelf(m: map<string, CanonicalJson.Json>)
    ensures EvidenceEquals(m, m)
  {
  }

  lemma ProposedOp(events: seq<Event>, a: string, op: LiveOp)
    requires OpInv(events, a, op)
    ensures op.machine.identity.actionId == a && IsProposal(EventAt(events, op.createdSeq), op.machine.identity)
  {
    hide Legal, After, Linked, IsProposal, EventAt;
  }

  lemma SnapshotAcceptedLive(t: Tables, events: seq<Event>, a: string, op: LiveOp)
    requires OpInv(events, a, op) && AttemptsOf(t, a) == AttemptRowsOfLog(a, op.log)
    ensures SnapshotAccepted(t, events, SnapshotOfLive(op))
  {
    hide OpInv, AttemptsOf, AttemptRowAccepted, TransitionAccepted, IsProposal, EventAt;
    var s := SnapshotOfLive(op);
    ProposedOp(events, a, op);
    forall i | 0 <= i < |AttemptRowsOfLog(a, op.log)| {
      AttemptRowAcceptedLive(events, a, op, i);
    }
    forall j | 0 <= j < |op.log| ensures TransitionAccepted(events, s, s.history[j]) {
      TransitionAcceptedLive(events, a, op, j);
    }
  }

  // ---------- The accounting ----------

  predicate ManagedAt(events: seq<Event>, n: int) {
    EventAt(events, n).Some? && Managed(EventAt(events, n).value.kind)
  }

  lemma AttemptReferencesManaged(events: seq<Event>, s: Snapshot, rows: seq<AttemptRow>, n: int)
    requires AttemptsAccepted(events, s, rows) && n in AttemptReferences(rows)
    ensures ManagedAt(events, n)
  {
    hide HistoryByAttempt, MatchesIdentity, EventAt;
    var r :| r in rows && (r.dispatchSeq == n || r.transitionSeq == n);
    var i :| 0 <= i < |rows| && rows[i] == r;
    assert AttemptRowAccepted(events, s, rows[i], i + 1);
  }

  lemma TransitionReferencesManaged(events: seq<Event>, s: Snapshot, n: int)
    requires TransitionsAccepted(events, s) && n in TransitionReferences(s.history)
    ensures ManagedAt(events, n)
  {
    hide TransitionFacts, EvidenceEquals, MatchesIdentity, EventAt, SuccessfullyPrepared;
    var p :| p in s.history && (p.eventSeq == n || (SuccessfullyPrepared(p.record) && p.eventSeq - 1 == n));
    var j :| 0 <= j < |s.history| && s.history[j] == p;
    assert TransitionAccepted(events, s, s.history[j]);
  }

  /** What an accepted snapshot refers to are managed events of the log. */
  lemma ReferencesAreManaged(t: Tables, events: seq<Event>, s: Snapshot, n: int)
    requires SnapshotAccepted(t, events, s) && Contiguous(events) && n in References(t, s)
    ensures n in ActualManaged(events)
  {
    hide AttemptsOf, MatchesIdentity, AttemptsAccepted, TransitionsAccepted, AttemptReferences, TransitionReferences;
    if n in AttemptReferences(AttemptsOf(t, s.identity.actionId)) {
      AttemptReferencesManaged(events, s, AttemptsOf(t, s.identity.actionId), n);
    } else if n in TransitionReferences(s.history) {
      TransitionReferencesManaged(events, s, n);
    }
    assert ManagedAt(events, n);
    assert EventAt(events, n).value in events && EventAt(events, n).value.seqNo == n;
  }

  /** What an operation owns, its snapshot refers to. */
  lemma OwnedIsReferenced(t: Tables, events: seq<Event>, a: string, op: LiveOp, n: int)
    requires OpInv(events, a, op) && AttemptsOf(t, a) == AttemptRowsOfLog(a, op.log) && Owns(op, n)
    ensures n in References(t, SnapshotOfLive(op))
  {
    hide OpInv, AttemptRowsOfLog, AttemptsOf, IsProposal, EventAt, SuccessfullyPrepared;
    ProposedOp(events, a, op);
    if n != op.createdSeq {
      var j :| 0 <= j < |op.log| && OwnsAt(op.log[j], n);
      if n == op.log[j].eventSeq || SuccessfullyPrepared(op.log[j].record) {
        EntryReferences(op.log, j);
      } else {
        DispatchingEntry(events, a, op, j);
        var r := EntryHasRow(a, op.log, j);
        assert n in AttemptReferences(AttemptsOf(t, a));
      }
    }
  }

  lemma EntryReferences(log: seq<Entry>, j: nat)
    requires j < |log|
    ensures log[j].eventSeq in TransitionReferences(PersistedOfLog(log))
    ensures SuccessfullyPrepared(log[j].record) ==> log[j].eventSeq - 1 in TransitionReferences(PersistedOfLog(log))
  {
    assert PersistedOfLog(log)[j] == PersistedOf(log[j]);
    assert PersistedOf(log[j]) in PersistedOfLog(log);
  }

  lemma DispatchingEntry(events: seq<Event>, a: string, op: LiveOp, j: nat)
    requires OpInv(events, a, op) && j < |op.log|
    ensures op.log[j].record.resulting == InFlight ==> op.log[j].record.attemptId.Some?
  {
    hide Legal, After, TransitionFacts;
    assert Linked(events, op.machine.identity, op.log[j]);
  }

  // ---------- Acceptance ----------

  lemma OperationKeysLive(t: Tables, v: Live)
    requires Rep(t, v) && Inv(v)
    ensures forall i | 0 <= i < |t.operations| ::
              HasEvent(t, t.operations[i].createdSeq) && HasEvent(t, t.operations[i].updatedSeq)
  {
    EventsRead(t, v.events);
    hide LogInv, RepTransitions, RepAttempts, RepEvents, MetadataAccepted, EventsOf, HasEvent, OpInv, SeqBefore;
    forall i | 0 <= i < |t.operations|
      ensures HasEvent(t, t.operations[i].createdSeq) && HasEvent(t, t.operations[i].updatedSeq)
    {
      var a := v.order[i];
      CreatedInLog(v.events, a, v.ops[a]);
      LastSeqInLog(v.events, a, v.ops[a]);
      UpdatedIsLast(v.ops[a]);
    }
  }

  lemma UpdatedIsLast(op: LiveOp)
    ensures UpdatedSeq(op) == SeqBefore(op, |op.log|)
  {
  }

  lemma TransitionKeysLive(t: Tables, v: Live, r: TransitionRow)
    requires Rep(t, v) && Inv(v) && r in t.transitions
    requires forall n: int :: HasEvent(t, n) <==> 1 <= n <= |v.events|
    ensures HasOperation(t, r.actionId) && HasEvent(t, r.eventSeq)
  {
    InvNamesActions(v);
    hide Inv, RepOperations, RepTransitions, RepAttempts, RepEvents, MetadataAccepted, HasEvent, HasOperation,
         ActionsNamed, OrderInv, LogInv;
    StoredTransition(t, v, r);
    OperationRead(t, v, r.actionId);
  }

  lemma AttemptKeysLive(t: Tables, v: Live, r: AttemptRow)
    requires Rep(t, v) && Inv(v) && r in t.attempts
    requires forall n: int :: HasEvent(t, n) <==> 1 <= n <= |v.events|
    ensures HasOperation(t, r.actionId) && HasEvent(t, r.dispatchSeq) && HasEvent(t, r.transitionSeq)
  {
    InvNamesActions(v);
    hide Inv, RepOperations, RepTransitions, RepAttempts, RepEvents, MetadataAccepted, HasEvent, HasOperation,
         ActionsNamed, OrderInv, LogInv;
    StoredAttempt(t, v, r);
    OperationRead(t, v, r.actionId);
  }

  lemma ForeignKeysLive(t: Tables, v: Live)
    requires Rep(t, v) && Inv(v)
    ensures ForeignKeysHold(t)
  {
    OperationKeysLive(t, v);
    EventsRead(t, v.events);
    hide Inv, Rep, HasEvent, HasOperation, EventsOf, NextSeq, LatestEvent;
    forall i | 0 <= i < |t.transitions|
      ensures HasOperation(t, t.transitions[i].actionId) && HasEvent(t, t.transitions[i].eventSeq)
    {
      TransitionKeysLive(t, v, t.transitions[i]);
    }
    forall i | 0 <= i < |t.attempts|
      ensures HasOperation(t, t.attempts[i].actionId)
      ensures HasEvent(t, t.attempts[i].dispatchSeq) && HasEvent(t, t.attempts[i].transitionSeq)
    {
      AttemptKeysLive(t, v, t.attempts[i]);
    }
  }

  lemma OpOfInv(v: Live, a: string)
    requires Inv(v) && a in v.ops
    ensures OpInv(v.events, a, v.ops[a])
    ensures a in v.order
  {
    hide OpInv, LogInv;
  }

  lemma LiveSnapshotAccepted(t: Tables, v: Live, s: Snapshot)
    requires Rep(t, v) && Inv(v) && OrderInv(v) && s in LiveSnapshots(v.order, v.ops)
    ensures SnapshotAccepted(t, v.events, s)
  {
    hide Rep, Inv, OpInv, SnapshotOfLive, SnapshotAccepted, AttemptsOf, LoadMachine, SnapshotOf;
    var i :| 0 <= i < |v.order| && LiveSnapshots(v.order, v.ops)[i] == s;
    var a := v.order[i];
    MachineRead(t, v, a);
    OpOfInv(v, a);
    SnapshotAcceptedLive(t, v.events, a, v.ops[a]);
  }

  lemma ManagedIsExpected(t: Tables, v: Live, n: int)
    requires Rep(t, v) && Inv(v) && OrderInv(v) && n in ActualManaged(v.events)
    ensures n in ExpectedManaged(t, LiveSnapshots(v.order, v.ops))
  {
    var a := OwnerOf(v, n);
    hide Rep, Inv, OpInv, SnapshotOfLive, AttemptsOf, LoadMachine, SnapshotOf, Owns, References, ActualManaged,
         OrderInv;
    MachineRead(t, v, a);
    OpOfInv(v, a);
    OwnedIsReferenced(t, v.events, a, v.ops[a], n);
    var i :| 0 <= i < |v.order| && v.order[i] == a;
    assert LiveSnapshots(v.order, v.ops)[i] == SnapshotOfLive(v.ops[a]);
    assert SnapshotOfLive(v.ops[a]) in LiveSnapshots(v.order, v.ops);
  }

  lemma OwnerOf(v: Live, n: int) returns (a: string)
    requires Inv(v) && n in ActualManaged(v.events)
    ensures a in v.ops && Owns(v.ops[a], n)
  {
    hide OpInv, Owns, OrderInv, AttemptsInv;
    var e :| e in v.events && Managed(e.kind) && e.seqNo == n;
    var i :| 0 <= i < |v.events| && v.events[i] == e;
    assert v.events[i].seqNo == i + 1;
    a :| a in v.ops && Owns(v.ops[a], i + 1);
  }

  lemma ManagedAccounted(t: Tables, v: Live)
    requires Rep(t, v) && Inv(v) && OrderInv(v)
    ensures ActualManaged(v.events) == ExpectedManaged(t, LiveSnapshots(v.order, v.ops))
  {
    assert Contiguous(v.events) by { LogOrdered(v); }
    hide Rep, Inv, OrderInv, SnapshotAccepted, ActualManaged, ExpectedManaged, LiveSnapshots, Contiguous;
    var snapshots := LiveSnapshots(v.order, v.ops);
    forall n | n in ActualManaged(v.events) {
      ManagedIsExpected(t, v, n);
    }
    forall n | n in ExpectedManaged(t, snapshots) ensures n in ActualManaged(v.events) {
      var s := ReferringSnapshot(t, snapshots, n);
      LiveSnapshotAccepted(t, v, s);
      ReferencesAreManaged(t, v.events, s, n);
    }
  }

  lemma LogOrdered(v: Live)
    requires Inv(v)
    ensures LogInv(v.events) && Contiguous(v.events) && TicksOrdered(v.events) && OrderInv(v)
  {
    hide OpInv, ValidEvent;
  }

  lemma MetadataExact(t: Tables, v: Live, runId: string)
    requires Rep(t, v)
    ensures MetadataAccepted(t, runId) <==> runId == v.runId
    ensures RepEvents(t, v.events)
  {
    hide RepEvents, RepOperations, RepTransitions, RepAttempts;
  }

  /** Representing tables are accepted, under the run id they were created with. */
  lemma RepresentingAccepted(t: Tables, v: Live, runId: string)
    requires Rep(t, v) && Inv(v)
    ensures Accepted(t, runId) <==> runId == v.runId
  {
    LogOrdered(v);
    var snapshots := LiveSnapshots(v.order, v.ops);
    hide Rep, Inv, LogInv, OrderInv, RepEvents, ForeignKeysHold, MetadataAccepted, SnapshotAccepted, EventsOf,
         Snapshots, ActualManaged, ExpectedManaged, LiveSnapshots, Contiguous, TicksOrdered, HasEvent,
         OrderedEvents, LatestEvent;
    MetadataExact(t, v, runId);
    ForeignKeysLive(t, v);
    EventsRead(t, v.events);
    SnapshotsRead(t, v);
    ManagedAccounted(t, v);
    forall s | s in snapshots {
      LiveSnapshotAccepted(t, v, s);
    }
  }

  lemma ReferringSnapshot(t: Tables, snapshots: seq<Snapshot>, n: int) returns (s: Snapshot)
    requires n in ExpectedManaged(t, snapshots)
    ensures s in snapshots && n in References(t, s)
  {
    hide References;
    s :| s in snapshots && n in References(t, s);
  }

  // ---------- One call, and whole runs ----------

  predicate WriteCall(c: Call) {
    c.AppendCall? || c.RegisterCall? || c.TransitionCall? || c.DispatchCall?
  }

  /** The outcome agrees and the states after the call still represent each other. */
  ghost predicate Simulated(l: Ledger, v: Live, c: Call)
    requires forall i | 0 <= i < |v.order| :: v.order[i] in v.ops
  {
    Perform(l, c).1 == LiveStep(v, c).1 && Represents(Perform(l, c).0, LiveStep(v, c).0)
  }

  lemma OrderNamesOps(v: Live)
    requires OrderInv(v)
    ensures forall i | 0 <= i < |v.order| :: v.order[i] in v.ops
  {
  }

  lemma WriteSimulated(l: Ledger, v: Live, c: Call)
    requires Represents(l, v) && Inv(v) && !l.closed && WriteCall(c)
    requires forall i | 0 <= i < |v.order| :: v.order[i] in v.ops
    ensures Simulated(l, v, c)
  {
    hide Inv, Rep, Append, Register, Transition, Dispatch, LiveAppend, LiveRegister, LiveTransition, LiveDispatch,
         LiveSnapshots, Accepted;
    var t := l.tables;
    match c {
      case AppendCall(e) => AppendSimulated(t, v, e); AppendKeepsHandle(v, e);
      case RegisterCall(id, tick) => RegisterSimulated(t, v, id, tick); RegisterKeepsHandle(v, id, tick);
      case TransitionCall(a, target, e, candidate, tick) =>
        TransitionSimulated(t, v, a, target, e, candidate, tick);
        TransitionKeepsHandle(v, a, target, e, candidate, tick);
      case DispatchCall(a, attemptId, e, candidate, tick) =>
        DispatchSimulated(t, v, a, attemptId, e, candidate, tick);
        DispatchKeepsHandle(v, a, attemptId, e, candidate, tick);
    }
  }

  lemma ReadSimulated(l: Ledger, v: Live, c: Call)
    requires Represents(l, v) && Inv(v) && !l.closed && !WriteCall(c) && !c.CloseCall? && !c.ReopenCall?
    requires forall i | 0 <= i < |v.order| :: v.order[i] in v.ops
    ensures Simulated(l, v, c)
  {
    hide Inv, Rep, Accepted, SnapshotOf, Snapshots, EventsOf, NextSeq, SnapshotOfLive, LiveSnapshots;
    var t := l.tables;
    match c {
      case NextSeqCall => LogRead(t, v);
      case EventsCall => LogRead(t, v);
      case OperationCall(a) => MachineRead(t, v, a);
      case OperationsCall => SnapshotsRead(t, v);
      case ValidateCall => RepresentingAccepted(t, v, l.runId);
    }
  }

  lemma HandleSimulated(l: Ledger, v: Live, c: Call)
    requires Represents(l, v) && Inv(v) && (l.closed || c.CloseCall? || c.ReopenCall?)
    requires forall i | 0 <= i < |v.order| :: v.order[i] in v.ops
    ensures Simulated(l, v, c)
  {
    hide Inv, Rep, Accepted, LiveSnapshots;
    RepIgnoresHandle(l.tables, v, true);
    RepIgnoresHandle(l.tables, v, false);
    if c.ReopenCall? { RepresentingAccepted(l.tables, v, c.runId); }
  }

  /** One call on a representing ledger gives the live ledger's outcome and represents
      the live ledger's next state; the invariant is kept. */
  lemma CallSimulated(l: Ledger, v: Live, c: Call)
    requires Represents(l, v) && Inv(v) && OrderInv(v)
    ensures var (l', outcome) := Perform(l, c);
            var (v', expected) := LiveStep(v, c);
            outcome == expected && Represents(l', v') && Inv(v')
  {
    hide Inv, Represents, Perform, LiveStep, OrderInv, WriteCall;
    StepKeepsInv(v, c);
    OrderNamesOps(v);
    if l.closed || c.CloseCall? || c.ReopenCall? {
      HandleSimulated(l, v, c);
    } else if WriteCall(c) {
      WriteSimulated(l, v, c);
    } else {
      ReadSimulated(l, v, c);
    }
  }

  lemma RepIgnoresHandle(t: Tables, v: Live, closed: bool)
    requires Rep(t, v)
    ensures Rep(t, v.(closed := closed))
  {
    hide RepEvents, RepOperations, RepTransitions, RepAttempts;
  }

  lemma LogRead(t: Tables, v: Live)
    requires Rep(t, v) && Inv(v)
    ensures NextSeq(t) == |v.events| + 1 && EventsOf(t) == Ok(v.events)
  {
    MetadataExact(t, v, v.runId);
    LogOrdered(v);
    hide Rep, Inv, EventsOf, NextSeq, RepEvents, LogInv;
    EventsRead(t, v.events);
  }

  predicate SameHandle(v: Live, w: Live) {
    w.runId == v.runId && w.closed == v.closed
  }

  lemma AppendKeepsHandle(v: Live, e: Event)
    ensures SameHandle(v, LiveAppend(v, e).0)
  {
  }

  lemma RegisterKeepsHandle(v: Live, id: Identity, tick: nat)
    ensures SameHandle(v, LiveRegister(v, id, tick).0)
  {
    hide Lifecycle;
  }

  lemma TransitionKeepsHandle(v: Live, a: string, target: State, e: Evidence, candidate: Identity, tick: nat)
    ensures SameHandle(v, LiveTransition(v, a, target, e, candidate, tick).0)
  {
    hide TakeStep, StepEvents, ValidEvidenceId;
  }

  lemma DispatchKeepsHandle(v: Live, a: string, attemptId: string, e: Evidence, candidate: Identity, tick: nat)
    ensures SameHandle(v, LiveDispatch(v, a, attemptId, e, candidate, tick).0)
  {
    hide TakeStep, StepEvents, ValidEvidenceId, ValidAttemptId;
  }

  /** The live ledger's outcomes over a sequence of calls. */
  ghost function LiveRun(v: Live, calls: seq<Call>): (r: (Live, seq<Outcome>))
    requires Inv(v)
    ensures Inv(r.0) && |r.1| == |calls|
  {
    if |calls| == 0 then (v, [])
    else
      var (before, outcomes) := LiveRun(v, calls[..|calls| - 1]);
      StepKeepsInv(before, calls[|calls| - 1]);
      LogOrdered(before);
      var (after, outcome) := LiveStep(before, calls[|calls| - 1]);
      (after, outcomes + [outcome])
  }

  lemma EmptyInv(runId: string)
    ensures Inv(Empty(runId)) && Represents(Create(runId), Empty(runId))
  {
  }

  /** Replay refines live execution: for every sequence of calls on a fresh ledger, with
      close and reopen anywhere among them, every returned value, snapshot and error is
      that of the live ledger. */
  lemma {:induction false} ReplayRefinesLive(runId: string, calls: seq<Call>)
    ensures Inv(Empty(runId))
    ensures Run(Create(runId), calls).1 == LiveRun(Empty(runId), calls).1
    ensures Represents(Run(Create(runId), calls).0, LiveRun(Empty(runId), calls).0)
  {
    EmptyInv(runId);
    if |calls| > 0 {
      var n := |calls| - 1;
      ReplayRefinesLive(runId, calls[..n]);
      hide Inv, Represents, Perform, LiveStep, Empty, Create, OrderInv;
      var v := LiveRun(Empty(runId), calls[..n]).0;
      LogOrdered(v);
      CallSimulated(Run(Create(runId), calls[..n]).0, v, calls[n]);
    }
  }

  /** The live ledger a run's tables represent. */
  lemma Reached(runId: string, calls: seq<Call>) returns (v: Live)
    ensures Inv(Empty(runId)) && v == LiveRun(Empty(runId), calls).0
    ensures Inv(v) && OrderInv(v) && Rep(Run(Create(runId), calls).0.tables, v)
  {
    EmptyInv(runId);
    ReplayRefinesLive(runId, calls);
    hide Inv, Rep, Run, LiveRun, Empty, Create, OrderInv;
    v := LiveRun(Empty(runId), calls).0;
    LogOrdered(v);
  }

  lemma LastOfRun(v: Live, calls: seq<Call>)
    requires Inv(v) && |calls| > 0
    ensures var before := LiveRun(v, calls[..|calls| - 1]);
            && OrderInv(before.0)
            && LiveRun(v, calls).0 == LiveStep(before.0, calls[|calls| - 1]).0
            && LiveRun(v, calls).1 == before.1 + [LiveStep(before.0, calls[|calls| - 1]).1]
  {
    hide Inv, LiveStep, OrderInv;
    LogOrdered(LiveRun(v, calls[..|calls| - 1]).0);
  }

  lemma StepKeepsRunId(v: Live, c: Call)
    requires OrderInv(v)
    ensures LiveStep(v, c).0.runId == v.runId
  {
    hide OrderInv, LiveAppend, LiveRegister, LiveTransition, LiveDispatch, LiveSnapshots, SnapshotOfLive;
    match c {
      case AppendCall(e) => AppendKeepsHandle(v, e);
      case RegisterCall(id, tick) => RegisterKeepsHandle(v, id, tick);
      case TransitionCall(a, target, e, candidate, tick) => TransitionKeepsHandle(v, a, target, e, candidate, tick);
      case DispatchCall(a, attemptId, e, candidate, tick) => DispatchKeepsHandle(v, a, attemptId, e, candidate, tick);
      case _ =>
    }
  }

  lemma {:induction false} RunIdFixed(v: Live, calls: seq<Call>)
    requires Inv(v)
    ensures LiveRun(v, calls).0.runId == v.runId
  {
    hide Inv, LiveStep, OrderInv;
    if |calls| > 0 {
      RunIdFixed(v, calls[..|calls| - 1]);
      LastOfRun(v, calls);
      StepKeepsRunId(LiveRun(v, calls[..|calls| - 1]).0, calls[|calls| - 1]);
    }
  }

  /** Writer and checker agree: whatever calls were made, failed ones included, the
      checker accepts the tables they left, under the ledger's run id and no other. */
  lemma WriterCheckerAgree(runId: string, calls: seq<Call>, claimed: string)
    ensures Accepted(Run(Create(runId), calls).0.tables, claimed) <==> claimed == runId
  {
    var v := Reached(runId, calls);
    RunIdFixed(Empty(runId), calls);
    hide Inv, Rep, Accepted, Run, LiveRun, OrderInv;
    RepresentingAccepted(Run(Create(runId), calls).0.tables, v, claimed);
  }
}
