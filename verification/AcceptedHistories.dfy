/** What the stored transition rows of one action tell about its run, in any tables the
    checker accepts and so in every reachable ledger: the shape of the path, the attempts
    along it, and the justification of every retry. */
module AcceptedHistories {
  import opened Wrappers
  import CanonicalJson
  import opened StateMachine
  import opened Histories
  import opened TransitionRules
  import opened Contracts
  import opened LedgerTables
  import opened LedgerCalls
  import opened LedgerChecker
  import opened LedgerAcceptance
  import opened LedgerProtocol
  import LedgerReachable
  import LedgerHistory
  import LedgerAtomicity

  predicate EntersInFlight(r: TransitionRow) {
    r.resulting == InFlight
  }

  /** The state the row at position `i` finds. */
  function StateFound(rows: seq<TransitionRow>, i: nat): State
    requires i <= |rows|
  {
    if i == 0 then Proposed else rows[i - 1].resulting
  }

  /** Position `i` of a connected path from PROPOSED, each step where its cause leads and
      with the facts that support it, followed by at most one violation; completion comes from VERIFYING
      with all four facts and after an attempt; a COMPLETE or SAFE_STOP row is last or
      last but one. */
  ghost predicate ShapedAt(rows: seq<TransitionRow>, i: nat)
    requires i < |rows|
  {
    var r := rows[i];
    && r.source == StateFound(rows, i) && r.source != Violation
    && (r.resulting == Violation <==> r.violationReason.Some?)
    && (r.resulting == Violation ==> i == |rows| - 1)
    && (r.resulting != Violation ==>
          && r.attempted == r.resulting
          && r.resulting == Destination(r.evidence.cause)
          && Departs(r.evidence.cause, r.source) && Supported(r.evidence)
          && (r.attemptId.Some? <==> EntersInFlight(r)))
    && (r.resulting == Complete ==>
          && r.source == Verifying
          && r.evidence.isFresh && r.evidence.authoritative
          && r.evidence.postconditionVerified && r.evidence.cardinalityValid
          && exists k :: 0 <= k < i && EntersInFlight(rows[k]))
    && (r.resulting == Complete || r.resulting == SafeStop ==>
          |rows| <= i + 2 && (i + 1 < |rows| ==> rows[i + 1].resulting == Violation))
  }

  ghost predicate WellShaped(rows: seq<TransitionRow>) {
    forall i | 0 <= i < |rows| :: ShapedAt(rows, i)
  }

  /** A conclusive reconciliation: RECONCILING to RETRYABLE on evidence that is fresh,
      authoritative and about the exact identity. */
  predicate Conclusive(r: TransitionRow) {
    && r.source == Reconciling && r.resulting == Retryable
    && r.evidence.isFresh && r.evidence.authoritative && r.evidence.exactIdentity
  }

  /** Every entry into IN_FLIGHT after another has its own RETRYABLE row right before it,
      and one after an INDETERMINATE row has a conclusive reconciliation in between. */
  ghost predicate RetriesJustified(rows: seq<TransitionRow>) {
    && (forall i, j | 0 <= i < j < |rows| && EntersInFlight(rows[i]) && EntersInFlight(rows[j]) ::
          i < j - 1 && rows[j - 1].resulting == Retryable)
    && (forall i, j | 0 <= i < j < |rows| && rows[i].resulting == Indeterminate && EntersInFlight(rows[j])
                      && forall k | i < k < j :: !EntersInFlight(rows[k]) ::
          exists k :: i < k < j && Conclusive(rows[k]))
  }

  lemma EntryAt(rows: seq<TransitionRow>, i: nat)
    requires i < |rows|
    ensures var e := EntriesOfRows(rows)[i];
            && e.record.source == rows[i].source && e.record.attempted == rows[i].attempted
            && e.record.resulting == rows[i].resulting && e.record.attemptId == rows[i].attemptId
            && e.record.violationReason == rows[i].violationReason
            && e.evidence == rows[i].evidence && e.record.cause == rows[i].evidence.cause
    ensures StateBefore(EntriesOfRows(rows), i) == StateFound(rows, i)
  {
  }

  lemma LegalIsWellShaped(id: Identity, rows: seq<TransitionRow>)
    requires Legal(id, EntriesOfRows(rows))
    ensures WellShaped(rows)
  {
    var log := EntriesOfRows(rows);
    hide Legal, EntriesOfRows, NormativeCause, GuardHolds, ValidAttemptId, Destination, Departs, Supported;
    assert |log| == |rows| by { EntriesCount(rows); }
    forall i | 0 <= i < |rows| ensures ShapedAt(rows, i) {
      EntryAt(rows, i);
      Shape(id, log, i);
      if rows[i].resulting != Violation { EntryLeadsTo(id, log, i); }
      Endings(id, log, i);
      if i + 1 < |rows| { EntryAt(rows, i + 1); }
      if rows[i].resulting == Complete {
        CompleteNeedsAttempt(id, log, i);
        var k :| 0 <= k < i && log[k].record.resulting == InFlight;
        EntryAt(rows, k);
        assert EntersInFlight(rows[k]);
      }
    }
  }

  lemma EntriesCount(rows: seq<TransitionRow>)
    ensures |EntriesOfRows(rows)| == |rows|
  {
  }

  lemma LegalRetriesJustified(id: Identity, rows: seq<TransitionRow>)
    requires Legal(id, EntriesOfRows(rows))
    ensures RetriesJustified(rows)
  {
    var log := EntriesOfRows(rows);
    hide Legal, EntriesOfRows;
    EntriesCount(rows);
    forall k | 0 <= k < |rows| ensures log[k].record.resulting == rows[k].resulting { EntryAt(rows, k); }
    forall i, j | 0 <= i < j < |rows| && EntersInFlight(rows[i]) && EntersInFlight(rows[j])
      ensures i < j - 1 && rows[j - 1].resulting == Retryable
    {
      RetryHasRetryable(id, log, i, j);
    }
    forall i, j | 0 <= i < j < |rows| && rows[i].resulting == Indeterminate && EntersInFlight(rows[j])
                  && forall k | i < k < j :: !EntersInFlight(rows[k])
      ensures exists k :: i < k < j && Conclusive(rows[k])
    {
      assert forall k | i < k < j :: log[k].record.resulting != InFlight by {
        forall k | i < k < j ensures log[k].record.resulting != InFlight { assert !EntersInFlight(rows[k]); }
      }
      RetryIsJustified(id, log, i, j);
      var k :| i < k < j && log[k].record.source == Reconciling && log[k].record.resulting == Retryable
               && log[k].evidence.isFresh && log[k].evidence.authoritative && log[k].evidence.exactIdentity;
      EntryAt(rows, k);
      assert Conclusive(rows[k]);
    }
  }

  /** The rows of one operation in accepted tables: they count from one, make a well
      shaped run with justified retries, end in the cached state, and dispatched exactly
      the attempts of the attempts table, in order and pairwise distinct. */
  ghost predicate RunStored(t: Tables, row: OperationRow) {
    var rows := TransitionsOf(t, row.identity.actionId);
    && OrdinalsCount(rows) && WellShaped(rows) && RetriesJustified(rows)
    && row.state == StateFound(rows, |rows|)
    && AttemptIds(AttemptsOf(t, row.identity.actionId)) == Attempts(EntriesOfRows(rows))
    && DistinctIds(Attempts(EntriesOfRows(rows)))
  }

  /** Whatever tables the checker accepts, every action's stored run is of this kind. */
  lemma AcceptedRun(t: Tables, runId: string, row: OperationRow)
    requires Keyed(t) && Accepted(t, runId) && row in t.operations
    ensures RunStored(t, row)
  {
    hide Keyed, Accepted, SnapshotOf, Snapshots, SnapshotAccepted, TransitionsOf, AttemptsOf, Legal, After, Attempts,
         EntriesOfRows, WellShaped, RetriesJustified, EventsOf;
    AcceptedOperation(t, runId, row);
    var rows := TransitionsOf(t, row.identity.actionId);
    LegalIsWellShaped(row.identity, rows);
    LegalRetriesJustified(row.identity, rows);
    MachineOfLegal(row.identity, EntriesOfRows(rows));
    EntriesCount(rows);
    if |rows| > 0 { EntryAt(rows, |rows| - 1); }
  }

  /** And so in every ledger any sequence of calls can reach. */
  lemma ReachableRun(runId: string, calls: seq<Call>, row: OperationRow)
    requires row in Run(Create(runId), calls).0.tables.operations
    ensures RunStored(Run(Create(runId), calls).0.tables, row)
  {
    hide Run, Create, Accepted, Keyed, RunStored;
    LedgerAtomicity.ReachableKeyed(runId, calls);
    LedgerReachable.WriterCheckerAgree(runId, calls, runId);
    AcceptedRun(Run(Create(runId), calls).0.tables, runId, row);
  }

  // ---------- Attempts of accepted tables ----------

  /** The comparison that takes 1 for true still fixes the record an event tells of. */
  lemma ComparedRecord(m: map<string, CanonicalJson.Json>, r: Record, e: Evidence)
    requires EvidenceEquals(m, TransitionFacts(r, e)) && r.evidenceId == e.evidenceId && r.cause == e.cause
    ensures RecordOfFacts(m) == r
  {
    hide TransitionFacts, FactText, StateOfName, CauseOfName, EvidenceEquals;
    FactsReadBack(r, e);
    ComparedText(m, r, e, SourceKey);
    ComparedText(m, r, e, AttemptedKey);
    ComparedText(m, r, e, ResultingKey);
    ComparedText(m, r, e, EvidenceIdKey);
    ComparedText(m, r, e, CauseKey);
    ComparedText(m, r, e, AttemptKey);
    ComparedText(m, r, e, ReasonKey);
  }

  lemma ComparedText(m: map<string, CanonicalJson.Json>, r: Record, e: Evidence, k: FactKey)
    requires EvidenceEquals(m, TransitionFacts(r, e)) && !FactValue(r, e, k).Bool?
    ensures FactText(m, k) == FactText(TransitionFacts(r, e), k)
  {
    hide TransitionFacts, KeyName, StateName, CauseName;
    FactEntries(r, e);
    assert KeyName(k) in m;
    assert !FactValue(r, e, k).Int?;
  }

  /** Every attempt row of accepted tables is backed like a permit: a dispatch event and,
      right after it at the same tick, a transition event into IN_FLIGHT, both under the
      identity of the one operation the row belongs to. */
  lemma AcceptedAttempt(t: Tables, runId: string, r: AttemptRow)
    requires Keyed(t) && Accepted(t, runId) && r in t.attempts
    ensures LedgerHistory.PermitStored(t, Permit(runId, r.actionId, r.attemptId, r.dispatchSeq, r.transitionSeq))
  {
    hide SnapshotOf, Accepted, EventsOf, IsDispatch, IsTransition, EventAt, Legal, After, TransitionAccepted,
         RecordOfFacts, AttemptsOf, TransitionsOf, HistoryByAttempt, FindOperation, HasOperation, EventsKeyed,
         OperationsKeyed, TransitionsKeyed, AttemptsKeyed;
    AttemptHasOperation(t, runId, r);
    AcceptedLog(t, runId);
    var row := OwnerOfRow(t, runId, r.actionId);
    FindOperationKeyed(t, row);
    AttemptsOfMembers(t, r.actionId);
    var rows := AttemptsOf(t, r.actionId);
    var j :| 0 <= j < |rows| && rows[j] == r;
    var p := AcceptedAttemptRow(t, row, TheSnapshot(t, row), j);
    AcceptedRecord(TheEvents(t), TheSnapshot(t, row), p);
  }

  /** The transition behind one accepted attempt row. */
  lemma AcceptedAttemptRow(t: Tables, row: OperationRow, s: Snapshot, j: nat) returns (p: Persisted)
    requires EventsOf(t).Ok? && Describes(t, row, s) && SnapshotAccepted(t, TheEvents(t), s)
    requires j < |AttemptsOf(t, row.identity.actionId)|
    ensures AttemptRowAccepted(TheEvents(t), s, AttemptsOf(t, row.identity.actionId)[j], j + 1)
    ensures p.eventSeq == AttemptsOf(t, row.identity.actionId)[j].transitionSeq && p.record.resulting == InFlight
    ensures TransitionAccepted(TheEvents(t), s, p)
    ensures p.record.evidenceId == p.evidence.evidenceId && p.record.cause == p.evidence.cause
  {
    hide EventsOf, EventAt, IsDispatch, IsTransition, IsProposal, Legal, After, TransitionAccepted, AttemptsOf,
         TransitionsOf, HistoryByAttempt, Attempts, DistinctIds, OrdinalsContiguous;
    var r := AttemptsOf(t, row.identity.actionId)[j];
    assert AttemptRowAccepted(TheEvents(t), s, r, j + 1);
    HistoryByAttemptMember(s.history, r.attemptId);
    p := HistoryByAttempt(s.history, r.attemptId).value;
    var i :| 0 <= i < |s.history| && s.history[i] == p;
    assert p == PersistedOfRow(TransitionsOf(t, row.identity.actionId)[i]);
  }

  lemma AcceptedRecord(events: seq<Event>, s: Snapshot, p: Persisted)
    requires TransitionAccepted(events, s, p)
    ensures EventAt(events, p.eventSeq).Some?
    ensures p.record.evidenceId == p.evidence.evidenceId && p.record.cause == p.evidence.cause ==>
              RecordOfFacts(EventAt(events, p.eventSeq).value.evidence) == p.record
  {
    hide EventAt, RecordOfFacts, TransitionFacts, EvidenceEquals;
    if p.record.evidenceId == p.evidence.evidenceId && p.record.cause == p.evidence.cause {
      ComparedRecord(EventAt(events, p.eventSeq).value.evidence, p.record, p.evidence);
    }
  }
}
