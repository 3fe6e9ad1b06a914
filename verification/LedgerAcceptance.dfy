/** Consequences of acceptance, for tables however they came about: every managed event
    has exactly one owner, and the derived columns and the attempts table are functions
    of the events, the identities and the transition rows. */
module LedgerAcceptance {
  import opened Wrappers
  import opened StateMachine
  import opened Histories
  import opened Contracts
  import opened LedgerTables
  import opened LedgerCalls
  import opened LedgerChecker

  function TheEvents(t: Tables): seq<Event>
    requires EventsOf(t).Ok?
  {
    EventsOf(t).value
  }

  lemma EventBySeq(events: seq<Event>, e: Event)
    requires Contiguous(events) && e in events
    ensures EventAt(events, e.seqNo) == Some(e)
  {
  }

  /** A reference of an accepted operation names a managed event of that operation, and
      the event's kind tells which row refers to it. */
  lemma ReferenceKind(t: Tables, runId: string, row: OperationRow, n: int)
    requires Keyed(t) && Accepted(t, runId) && row in t.operations
    requires SnapshotOf(t, row.identity.actionId).Ok? && n in References(t, TheSnapshot(t, row))
    ensures var e := EventAt(TheEvents(t), n);
            && e.Some? && Managed(e.value.kind) && MatchesIdentity(e.value, row.identity)
            && (e.value.kind == ActionProposed ==> n == row.createdSeq)
            && (e.value.kind == AttemptDispatched ==>
                  exists r :: r in t.attempts && r.actionId == row.identity.actionId && r.dispatchSeq == n)
            && (e.value.kind == StateTransition ==>
                  exists r :: r in t.transitions && r.actionId == row.identity.actionId && r.eventSeq == n)
            && (e.value.kind == OperationPrepared ==>
                  exists r :: r in t.transitions && r.actionId == row.identity.actionId
                              && SuccessfullyPrepared(RecordOfRow(r)) && r.eventSeq - 1 == n)
  {
    hide Accepted, Keyed, SnapshotOf, Snapshots, TransitionsOf, AttemptsOf, EventsOf, AttemptsAccepted,
         TransitionsAccepted, AttemptReferences, TransitionReferences, SuccessfullyPrepared, Legal, After,
         DistinctIds, OrdinalsCount;
    var a := row.identity.actionId;
    var s := TheSnapshot(t, row);
    AcceptedOperation(t, runId, row);
    AcceptedParts(t, runId);
    TransitionsOfMembers(t, a);
    AttemptsOfMembers(t, a);
    if n in AttemptReferences(AttemptsOf(t, a)) {
      AttemptReferenceKind(t, TheEvents(t), s, n);
    } else if n in TransitionReferences(s.history) {
      TransitionReferenceKind(t, TheEvents(t), row, s, n);
    }
  }

  lemma AttemptReferenceKind(t: Tables, events: seq<Event>, s: Snapshot, n: int)
    requires AttemptsAccepted(events, s, AttemptsOf(t, s.identity.actionId))
    requires s.history == PersistedOfRows(TransitionsOf(t, s.identity.actionId))
    requires n in AttemptReferences(AttemptsOf(t, s.identity.actionId))
    ensures var e := EventAt(events, n);
            && e.Some? && MatchesIdentity(e.value, s.identity)
            && (e.value.kind == AttemptDispatched || e.value.kind == StateTransition)
            && (e.value.kind == AttemptDispatched ==>
                  exists r :: r in AttemptsOf(t, s.identity.actionId) && r.dispatchSeq == n)
            && (e.value.kind == StateTransition ==>
                  exists r :: r in TransitionsOf(t, s.identity.actionId) && r.eventSeq == n)
  {
    hide AttemptsOf, TransitionsOf, MatchesIdentity, EventAt, IsDispatchRecord, RecordOfRow;
    var rows := AttemptsOf(t, s.identity.actionId);
    var r :| r in rows && (r.dispatchSeq == n || r.transitionSeq == n);
    hide HistoryByAttempt;
    var i :| 0 <= i < |rows| && rows[i] == r;
    assert AttemptRowAccepted(events, s, rows[i], i + 1);
    if r.transitionSeq == n {
      HistoryByAttemptMember(s.history, r.attemptId);
      var p := HistoryByAttempt(s.history, r.attemptId).value;
      var j :| 0 <= j < |s.history| && s.history[j] == p;
      assert TransitionsOf(t, s.identity.actionId)[j].eventSeq == n;
    }
  }

  lemma TransitionReferenceKind(t: Tables, events: seq<Event>, row: OperationRow, s: Snapshot, n: int)
    requires s.identity == row.identity && TransitionsAccepted(events, s)
    requires s.history == PersistedOfRows(TransitionsOf(t, s.identity.actionId))
    requires n in TransitionReferences(s.history)
    ensures var e := EventAt(events, n);
            && e.Some? && MatchesIdentity(e.value, s.identity)
            && (e.value.kind == StateTransition || e.value.kind == OperationPrepared)
            && (e.value.kind == StateTransition ==>
                  exists r :: r in TransitionsOf(t, s.identity.actionId) && r.eventSeq == n)
            && (e.value.kind == OperationPrepared ==>
                  exists r :: r in TransitionsOf(t, s.identity.actionId)
                              && SuccessfullyPrepared(RecordOfRow(r)) && r.eventSeq - 1 == n)
  {
    var p :| p in s.history && (p.eventSeq == n || (SuccessfullyPrepared(p.record) && p.eventSeq - 1 == n));
    var j :| 0 <= j < |s.history| && s.history[j] == p;
    assert TransitionAccepted(events, s, s.history[j]);
    var r := TransitionsOf(t, s.identity.actionId)[j];
    assert r in TransitionsOf(t, s.identity.actionId) && p == PersistedOfRow(r);
  }

  /** Every managed event of accepted tables belongs to an operation. */
  lemma ManagedEventOwner(t: Tables, runId: string, e: Event) returns (row: OperationRow)
    requires Keyed(t) && Accepted(t, runId) && e in TheEvents(t) && Managed(e.kind)
    ensures row in t.operations && SnapshotOf(t, row.identity.actionId).Ok?
    ensures e.seqNo in References(t, TheSnapshot(t, row))
    ensures EventAt(TheEvents(t), e.seqNo) == Some(e)
  {
    hide SnapshotOf, SnapshotAccepted, ForeignKeysHold, Keyed, References;
    EventBySeq(TheEvents(t), e);
    assert e.seqNo in ActualManaged(TheEvents(t));
    assert e.seqNo in ExpectedManaged(t, Snapshots(t).value);
    var s :| s in Snapshots(t).value && e.seqNo in References(t, s);
    row := AcceptedSnapshot(t, runId, s);
  }

  // ---------- Exact accounting ----------

  function SeqsOfKind(events: seq<Event>, kind: EventKind): set<int> {
    set e | e in events && e.kind == kind :: e.seqNo
  }

  ghost function Image<T>(rows: seq<T>, f: T -> int): set<int> {
    set r | r in rows :: f(r)
  }

  function CreatedSeq(r: OperationRow): int {
    r.createdSeq
  }

  function TransitionSeq(r: TransitionRow): int {
    r.eventSeq
  }

  /** Where the prepared event of a row that entered PREPARED must be. */
  function PreparedSeq(r: TransitionRow): int {
    r.eventSeq - 1
  }

  function DispatchSeq(r: AttemptRow): int {
    r.dispatchSeq
  }

  /** The rows that entered PREPARED. */
  function PreparedRows(rows: seq<TransitionRow>): seq<TransitionRow> {
    if |rows| == 0 then []
    else PreparedRows(rows[..|rows| - 1])
         + if SuccessfullyPrepared(RecordOfRow(rows[|rows| - 1])) then [rows[|rows| - 1]] else []
  }

  lemma {:induction false} PreparedRowsMembers(rows: seq<TransitionRow>)
    ensures forall r :: r in PreparedRows(rows) <==> r in rows && SuccessfullyPrepared(RecordOfRow(r))
  {
    if |rows| > 0 {
      PreparedRowsMembers(rows[..|rows| - 1]);
      assert rows == rows[..|rows| - 1] + [rows[|rows| - 1]];
    }
  }

  predicate EventSeqsDistinct(rows: seq<TransitionRow>) {
    forall i, j | 0 <= i < j < |rows| :: rows[i].eventSeq != rows[j].eventSeq
  }

  lemma {:induction false} PreparedRowsDistinct(rows: seq<TransitionRow>)
    requires EventSeqsDistinct(rows)
    ensures EventSeqsDistinct(PreparedRows(rows))
  {
    if |rows| > 0 {
      var init, last := rows[..|rows| - 1], rows[|rows| - 1];
      PreparedRowsDistinct(init);
      PreparedRowsMembers(init);
      var ps := PreparedRows(init);
      forall i | 0 <= i < |ps| ensures ps[i].eventSeq != last.eventSeq {
        assert ps[i] in init;
      }
    }
  }

  lemma EventInLog(t: Tables, n: int, kind: EventKind)
    requires EventsOf(t).Ok? && Contiguous(TheEvents(t))
    requires EventAt(TheEvents(t), n).Some? && EventAt(TheEvents(t), n).value.kind == kind
    ensures n in SeqsOfKind(TheEvents(t), kind)
  {
    assert TheEvents(t)[n - 1] in TheEvents(t);
  }

  lemma OwnerOfRow(t: Tables, runId: string, a: string) returns (row: OperationRow)
    requires Keyed(t) && Accepted(t, runId) && HasOperation(t, a)
    ensures row in t.operations && row.identity.actionId == a
    ensures SnapshotOf(t, a).Ok? && Describes(t, row, TheSnapshot(t, row))
    ensures SnapshotAccepted(t, TheEvents(t), TheSnapshot(t, row))
  {
    hide SnapshotOf, Describes, SnapshotAccepted, Accepted, Keyed;
    row := OperationOfAction(t, a);
    AcceptedOperation(t, runId, row);
  }

  /** The event behind one stored transition row. */
  lemma TransitionRowEvent(t: Tables, runId: string, r: TransitionRow)
    requires Keyed(t) && Accepted(t, runId) && r in t.transitions
    ensures r.eventSeq in SeqsOfKind(TheEvents(t), StateTransition)
    ensures SuccessfullyPrepared(RecordOfRow(r)) ==> r.eventSeq - 1 in SeqsOfKind(TheEvents(t), OperationPrepared)
  {
    hide SnapshotOf;
    var row := OwnerOfRow(t, runId, r.actionId);
    var s := TheSnapshot(t, row);
    TransitionsOfMembers(t, r.actionId);
    var j :| 0 <= j < |TransitionsOf(t, r.actionId)| && TransitionsOf(t, r.actionId)[j] == r;
    assert s.history[j] == PersistedOfRow(r);
    assert TransitionAccepted(TheEvents(t), s, s.history[j]);
    EventInLog(t, r.eventSeq, StateTransition);
    if SuccessfullyPrepared(RecordOfRow(r)) {
      EventInLog(t, r.eventSeq - 1, OperationPrepared);
    }
  }

  /** The event behind one stored attempt row. */
  lemma AttemptRowEvent(t: Tables, runId: string, r: AttemptRow)
    requires Keyed(t) && Accepted(t, runId) && r in t.attempts
    ensures r.dispatchSeq in SeqsOfKind(TheEvents(t), AttemptDispatched)
  {
    hide SnapshotOf;
    var row := OwnerOfRow(t, runId, r.actionId);
    var s := TheSnapshot(t, row);
    AttemptsOfMembers(t, r.actionId);
    var j :| 0 <= j < |AttemptsOf(t, r.actionId)| && AttemptsOf(t, r.actionId)[j] == r;
    assert AttemptRowAccepted(TheEvents(t), s, AttemptsOf(t, r.actionId)[j], j + 1);
    EventInLog(t, r.dispatchSeq, AttemptDispatched);
  }

  lemma OperationRowEvent(t: Tables, runId: string, r: OperationRow)
    requires Keyed(t) && Accepted(t, runId) && r in t.operations
    ensures r.createdSeq in SeqsOfKind(TheEvents(t), ActionProposed)
    ensures EventAt(TheEvents(t), r.createdSeq).Some?
    ensures EventAt(TheEvents(t), r.createdSeq).value.links.actionId == Some(r.identity.actionId)
  {
    hide SnapshotOf;
    AcceptedOperation(t, runId, r);
    EventInLog(t, r.createdSeq, ActionProposed);
  }

  /** The row that owns one managed event. */
  lemma RowOfManagedEvent(t: Tables, runId: string, kind: EventKind, n: int)
    requires Keyed(t) && Accepted(t, runId) && n in SeqsOfKind(TheEvents(t), kind)
    ensures kind == ActionProposed ==> n in Image(t.operations, CreatedSeq)
    ensures kind == StateTransition ==> n in Image(t.transitions, TransitionSeq)
    ensures kind == AttemptDispatched ==> n in Image(t.attempts, DispatchSeq)
    ensures kind == OperationPrepared ==> n in Image(PreparedRows(t.transitions), PreparedSeq)
  {
    if Managed(kind) {
      hide SnapshotOf, ForeignKeysHold, References, SuccessfullyPrepared, Accepted, Keyed, EventsOf, PreparedRows,
           EventAt, MatchesIdentity;
      var e :| e in TheEvents(t) && e.kind == kind && e.seqNo == n;
      var row := ManagedEventOwner(t, runId, e);
      ReferenceKind(t, runId, row, n);
      PreparedRowsMembers(t.transitions);
      if kind == ActionProposed {
        assert CreatedSeq(row) == n;
      } else if kind == StateTransition {
        var r :| r in t.transitions && r.eventSeq == n;
        assert TransitionSeq(r) == n;
      } else if kind == AttemptDispatched {
        var r :| r in t.attempts && r.dispatchSeq == n;
        assert DispatchSeq(r) == n;
      } else {
        var r :| r in t.transitions && SuccessfullyPrepared(RecordOfRow(r)) && r.eventSeq - 1 == n;
        assert PreparedSeq(r) == n;
      }
    }
  }

  lemma CreatedSeqsDistinct(t: Tables, runId: string, i: nat, j: nat)
    requires Keyed(t) && Accepted(t, runId) && i < j < |t.operations|
    ensures CreatedSeq(t.operations[i]) != CreatedSeq(t.operations[j])
  {
    hide Accepted;
    OperationRowEvent(t, runId, t.operations[i]);
    OperationRowEvent(t, runId, t.operations[j]);
  }

  /** Every row has its event. */
  lemma RowsHaveEvents(t: Tables, runId: string)
    requires Keyed(t) && Accepted(t, runId)
    ensures Image(t.operations, CreatedSeq) <= SeqsOfKind(TheEvents(t), ActionProposed)
    ensures Image(t.transitions, TransitionSeq) <= SeqsOfKind(TheEvents(t), StateTransition)
    ensures Image(t.attempts, DispatchSeq) <= SeqsOfKind(TheEvents(t), AttemptDispatched)
    ensures Image(PreparedRows(t.transitions), PreparedSeq) <= SeqsOfKind(TheEvents(t), OperationPrepared)
  {
    hide Accepted, Keyed, SuccessfullyPrepared, SeqsOfKind;
    PreparedRowsMembers(t.transitions);
    forall r | r in t.operations {
      OperationRowEvent(t, runId, r);
    }
    forall r | r in t.attempts {
      AttemptRowEvent(t, runId, r);
    }
    forall r | r in t.transitions {
      TransitionRowEvent(t, runId, r);
    }
  }

  /** Exact accounting: proposal events match operations, state-transition events match
      transition rows, dispatch events match attempts, and prepared events match the rows
      that entered PREPARED, each one to one. No managed event is shared or orphaned. */
  lemma ExactAccounting(t: Tables, runId: string)
    requires Keyed(t) && Accepted(t, runId)
    ensures SeqsOfKind(TheEvents(t), ActionProposed) == Image(t.operations, CreatedSeq)
    ensures SeqsOfKind(TheEvents(t), StateTransition) == Image(t.transitions, TransitionSeq)
    ensures SeqsOfKind(TheEvents(t), AttemptDispatched) == Image(t.attempts, DispatchSeq)
    ensures SeqsOfKind(TheEvents(t), OperationPrepared) == Image(PreparedRows(t.transitions), PreparedSeq)
  {
    var events := TheEvents(t);
    hide Accepted, Keyed, SeqsOfKind, Image;
    RowsHaveEvents(t, runId);
    forall n | n in SeqsOfKind(events, ActionProposed) {
      RowOfManagedEvent(t, runId, ActionProposed, n);
    }
    forall n | n in SeqsOfKind(events, StateTransition) {
      RowOfManagedEvent(t, runId, StateTransition, n);
    }
    forall n | n in SeqsOfKind(events, AttemptDispatched) {
      RowOfManagedEvent(t, runId, AttemptDispatched, n);
    }
    forall n | n in SeqsOfKind(events, OperationPrepared) {
      RowOfManagedEvent(t, runId, OperationPrepared, n);
    }
  }

  /** The counts agree, because each match is one to one. */
  lemma EqualCounts(t: Tables, runId: string)
    requires Keyed(t) && Accepted(t, runId)
    ensures |SeqsOfKind(TheEvents(t), ActionProposed)| == |t.operations|
    ensures |SeqsOfKind(TheEvents(t), StateTransition)| == |t.transitions|
    ensures |SeqsOfKind(TheEvents(t), AttemptDispatched)| == |t.attempts|
    ensures |SeqsOfKind(TheEvents(t), OperationPrepared)| == |PreparedRows(t.transitions)|
  {
    hide Accepted, EventsOf, SeqsOfKind, Image, PreparedRows, SuccessfullyPrepared;
    ExactAccounting(t, runId);
    forall i, j | 0 <= i < j < |t.operations| ensures CreatedSeq(t.operations[i]) != CreatedSeq(t.operations[j]) {
      CreatedSeqsDistinct(t, runId, i, j);
    }
    PreparedRowsDistinct(t.transitions);
    ImageSize(t.operations, CreatedSeq);
    ImageSize(t.transitions, TransitionSeq);
    ImageSize(t.attempts, DispatchSeq);
    ImageSize(PreparedRows(t.transitions), PreparedSeq);
  }

  lemma {:induction false} ImageSize<T>(rows: seq<T>, f: T -> int)
    requires forall i, j | 0 <= i < j < |rows| :: f(rows[i]) != f(rows[j])
    ensures |Image(rows, f)| == |rows|
  {
    if |rows| > 0 {
      var init, last := rows[..|rows| - 1], rows[|rows| - 1];
      ImageSize(init, f);
      assert rows == init + [last];
      assert Image(rows, f) == Image(init, f) + {f(last)};
      assert f(last) !in Image(init, f);
    }
  }

  // ---------- Derived data ----------

  function Identities(t: Tables): set<Identity> {
    set r | r in t.operations :: r.identity
  }

  /** The same log, the same registered identities and the same transition rows, in
      whatever order the rows are stored. */
  ghost predicate SameSources(t: Tables, u: Tables) {
    && EventsOf(t) == EventsOf(u)
    && Identities(t) == Identities(u)
    && (forall r :: r in t.transitions <==> r in u.transitions)
  }

  lemma CountedRowsFit(xs: seq<TransitionRow>, ys: seq<TransitionRow>)
    requires OrdinalsCount(xs) && OrdinalsCount(ys)
    requires forall r | r in xs :: r in ys
    ensures |xs| <= |ys|
  {
    if |xs| > 0 {
      var r := xs[|xs| - 1];
      assert r in ys;
      var j :| 0 <= j < |ys| && ys[j] == r;
      assert ys[j].ordinal == j + 1;
    }
  }

  lemma CountedRowsEqual(xs: seq<TransitionRow>, ys: seq<TransitionRow>)
    requires OrdinalsCount(xs) && OrdinalsCount(ys)
    requires forall r :: r in xs <==> r in ys
    ensures xs == ys
  {
    CountedRowsFit(xs, ys);
    CountedRowsFit(ys, xs);
    forall i | 0 <= i < |xs| ensures xs[i] == ys[i] {
      assert xs[i] in ys;
    }
  }

  /** The two rows of one identity, with the parts of their snapshots that the shared
      sources fix already equal. */
  lemma SharedHistory(t: Tables, u: Tables, runId: string, r: OperationRow) returns (s: OperationRow)
    requires Keyed(t) && Keyed(u) && Accepted(t, runId) && Accepted(u, runId) && SameSources(t, u)
    requires r in t.operations
    ensures s in u.operations && s.identity == r.identity && s.state == r.state
    ensures SnapshotOf(t, r.identity.actionId).Ok? && SnapshotOf(u, r.identity.actionId).Ok?
    ensures Describes(t, r, TheSnapshot(t, r)) && Describes(u, s, TheSnapshot(u, s))
    ensures SnapshotAccepted(t, TheEvents(t), TheSnapshot(t, r)) && SnapshotAccepted(u, TheEvents(u), TheSnapshot(u, s))
    ensures TheSnapshot(t, r).history == TheSnapshot(u, s).history
    ensures TheSnapshot(t, r).attemptIds == TheSnapshot(u, s).attemptIds
  {
    hide SnapshotOf, Keyed, Accepted, SnapshotAccepted, ForeignKeysHold;
    var a := r.identity.actionId;
    assert r.identity in Identities(u);
    s :| s in u.operations && s.identity == r.identity;
    AcceptedOperation(t, runId, r);
    AcceptedOperation(u, runId, s);
    TransitionsOfMembers(t, a);
    TransitionsOfMembers(u, a);
    CountedRowsEqual(TransitionsOf(t, a), TransitionsOf(u, a));
  }

  lemma CreatedDetermined(t: Tables, u: Tables, runId: string, r: OperationRow, s: OperationRow)
    requires Keyed(t) && Keyed(u) && Accepted(t, runId) && Accepted(u, runId) && SameSources(t, u)
    requires r in t.operations && s in u.operations && s.identity == r.identity
    ensures s.createdSeq == r.createdSeq
  {
    hide Accepted, SnapshotOf;
    OperationRowEvent(t, runId, r);
    ExactAccounting(u, runId);
    assert r.createdSeq in Image(u.operations, CreatedSeq);
    var q :| q in u.operations && CreatedSeq(q) == r.createdSeq;
    OperationRowEvent(u, runId, q);
  }

  lemma OperationDetermined(t: Tables, u: Tables, runId: string, r: OperationRow)
    requires Keyed(t) && Keyed(u) && Accepted(t, runId) && Accepted(u, runId) && SameSources(t, u)
    requires r in t.operations
    ensures r in u.operations
  {
    hide Accepted, SnapshotOf, Keyed, SameSources;
    var s := SharedHistory(t, u, runId, r);
    CreatedDetermined(t, u, runId, r, s);
    assert r == s;
  }

  lemma AttemptDetermined(t: Tables, u: Tables, runId: string, r: AttemptRow)
    requires Keyed(t) && Keyed(u) && Accepted(t, runId) && Accepted(u, runId) && SameSources(t, u)
    requires r in t.attempts
    ensures r in u.attempts
  {
    hide Accepted, SnapshotOf, Keyed, SameSources, Describes, SnapshotAccepted;
    var a := r.actionId;
    AttemptHasOperation(t, runId, r);
    var row := OperationOfAction(t, a);
    var other := SharedHistory(t, u, runId, row);
    AttemptsOfMembers(t, a);
    AttemptsOfMembers(u, a);
    AcceptedLog(t, runId);
    AcceptedLog(u, runId);
    SameAttempts(t, u, row, TheSnapshot(t, row), other, TheSnapshot(u, other));
  }

  /** Two accepted operations with one history have the same attempt rows. */
  lemma SameAttempts(t: Tables, u: Tables, r: OperationRow, x: Snapshot, q: OperationRow, y: Snapshot)
    requires EventsOf(t).Ok? && EventsOf(u).Ok?
    requires Describes(t, r, x) && Describes(u, q, y) && r.identity == q.identity
    requires SnapshotAccepted(t, TheEvents(t), x) && SnapshotAccepted(u, TheEvents(u), y)
    requires x.history == y.history && x.attemptIds == y.attemptIds
    ensures AttemptsOf(t, r.identity.actionId) == AttemptsOf(u, r.identity.actionId)
  {
    hide EventsOf, HistoryByAttempt, IsProposal, IsDispatch, IsTransition, EventAt, TransitionsAccepted;
    var a := r.identity.actionId;
    var xs, ys := AttemptsOf(t, a), AttemptsOf(u, a);
    AttemptsOfMembers(t, a);
    AttemptsOfMembers(u, a);
    assert |xs| == |AttemptIds(xs)| == |AttemptIds(ys)| == |ys|;
    forall i | 0 <= i < |xs| ensures xs[i] == ys[i] {
      assert xs[i] in xs && ys[i] in ys;
      assert AttemptIds(xs)[i] == AttemptIds(ys)[i];
      assert AttemptRowAccepted(TheEvents(t), x, xs[i], i + 1);
      assert AttemptRowAccepted(TheEvents(u), y, ys[i], i + 1);
    }
  }

  lemma AcceptedLog(t: Tables, runId: string)
    requires Accepted(t, runId)
    ensures EventsOf(t).Ok? && Contiguous(TheEvents(t)) && TicksOrdered(TheEvents(t))
  {
    hide EventsOf, Snapshots, SnapshotAccepted, ActualManaged, ExpectedManaged, ForeignKeysHold;
  }

  lemma AttemptHasOperation(t: Tables, runId: string, r: AttemptRow)
    requires Accepted(t, runId) && r in t.attempts
    ensures HasOperation(t, r.actionId)
  {
    hide EventsOf, Snapshots, SnapshotAccepted, ActualManaged, ExpectedManaged;
    var i :| 0 <= i < |t.attempts| && t.attempts[i] == r;
  }

  /** Acceptance makes derived data functional: accepted tables with the same sources
      have the same operation rows, cached columns included, and the same attempts. */
  lemma DerivedDataDetermined(t: Tables, u: Tables, runId: string)
    requires Keyed(t) && Keyed(u) && Accepted(t, runId) && Accepted(u, runId) && SameSources(t, u)
    ensures forall r :: r in t.operations <==> r in u.operations
    ensures forall r :: r in t.attempts <==> r in u.attempts
  {
    hide Accepted, Keyed;
    assert SameSources(u, t);
    hide SameSources;
    forall r | r in t.operations { OperationDetermined(t, u, runId, r); }
    forall r | r in u.operations { OperationDetermined(u, t, runId, r); }
    forall r | r in t.attempts { AttemptDetermined(t, u, runId, r); }
    forall r | r in u.attempts { AttemptDetermined(u, t, runId, r); }
  }
}
