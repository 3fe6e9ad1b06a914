/** Whole histories of one action. An entry keeps a record with the evidence and the
    candidate identity that produced it, so a history can be replayed step by step;
    a legal history is one whose replay makes exactly the recorded records. */
module Histories {
  import opened Wrappers
  import opened StateMachine

  datatype Entry = Entry(record: Record, evidence: Evidence, candidate: Identity, eventSeq: int)

  function Replayed(m: Machine, e: Entry): Step {
    TakeStep(m, e.record.attempted, e.evidence, e.candidate, e.record.attemptId)
  }

  /** The entry is what replaying its own inputs on `m` appends. */
  predicate Fits(m: Machine, e: Entry) {
    && m.state != Violation
    && ValidEvidenceId(e.evidence.evidenceId)
    && Replayed(m, e).record == e.record
  }

  /** The machine after a history. */
  function After(id: Identity, log: seq<Entry>): Machine {
    if |log| == 0 then Fresh(id)
    else Replayed(After(id, log[..|log| - 1]), log[|log| - 1]).machine
  }

  predicate Legal(id: Identity, log: seq<Entry>) {
    |log| == 0
    || (Legal(id, log[..|log| - 1]) && Fits(After(id, log[..|log| - 1]), log[|log| - 1]))
  }

  function RecordsOf(log: seq<Entry>): seq<Record> {
    if |log| == 0 then [] else RecordsOf(log[..|log| - 1]) + [log[|log| - 1].record]
  }

  /** The attempt ids of the entries into IN_FLIGHT, in order. */
  function Attempts(log: seq<Entry>): seq<string> {
    if |log| == 0 then []
    else
      var last := log[|log| - 1];
      Attempts(log[..|log| - 1])
      + (if last.record.resulting == InFlight && last.record.attemptId.Some? then [last.record.attemptId.value] else [])
  }

  lemma {:induction false} LegalPrefix(id: Identity, log: seq<Entry>, n: nat)
    requires Legal(id, log) && n <= |log|
    ensures Legal(id, log[..n])
    decreases |log|
  {
    if n < |log| {
      LegalPrefix(id, log[..|log| - 1], n);
      assert log[..|log| - 1][..n] == log[..n];
    } else {
      assert log[..n] == log;
    }
  }

  /** The state a history's entry finds. */
  function StateBefore(log: seq<Entry>, i: nat): State
    requires i <= |log|
  {
    if i == 0 then Proposed else log[i - 1].record.resulting
  }

  /** One replayed entry, seen from the outside. */
  predicate Link(source: State, e: Entry) {
    var r := e.record;
    && r.source == source && source != Violation
    && r.cause == e.evidence.cause && r.evidenceId == e.evidence.evidenceId
    && (r.resulting == Violation <==> r.violationReason.Some?)
    && (r.resulting != Violation ==>
          && r.attempted == r.resulting
          && NormativeCause(source, r.resulting) == Some(r.cause)
          && GuardHolds(source, r.resulting, e.evidence)
          && (r.attemptId.Some? <==> r.resulting == InFlight))
    && (r.attemptId.Some? ==> ValidAttemptId(r.attemptId.value))
  }

  lemma FittingEntry(m: Machine, e: Entry)
    requires Fits(m, e)
    ensures Link(m.state, e)
    ensures var n := Replayed(m, e).machine;
            && n.identity == m.identity && n.state == e.record.resulting
            && n.history == m.history + [e.record]
            && n.attemptIds == m.attemptIds
                 + (if e.record.resulting == InFlight then [e.record.attemptId.value] else [])
            && (e.record.resulting == InFlight ==> e.record.attemptId.value !in m.attemptIds)
  {
    hide ReasonText, ChangedFields, ValidAttemptId, ValidEvidenceId, NormativeCause, EdgeFailure, GuardHolds;
    SucceedsExactly(m, e.record.attempted, e.evidence, e.candidate, e.record.attemptId);
    if Replayed(m, e).raised {
      RaisesExactly(m, e.record.attempted, e.evidence, e.candidate, e.record.attemptId);
    }
  }

  predicate DistinctIds(ids: seq<string>) {
    forall i, j | 0 <= i < j < |ids| :: ids[i] != ids[j]
  }

  /** The replayed machine is the history seen through its records: its state, its
      records, and the attempt ids of the entries into IN_FLIGHT, pairwise distinct. */
  lemma {:induction false} MachineOfLegal(id: Identity, log: seq<Entry>)
    requires Legal(id, log)
    ensures var m := After(id, log);
            && m.identity == id && m.state == StateBefore(log, |log|)
            && m.history == RecordsOf(log)
            && m.attemptIds == Attempts(log) && DistinctIds(Attempts(log))
  {
    if |log| > 0 {
      var n := |log| - 1;
      MachineOfLegal(id, log[..n]);
      FittingEntry(After(id, log[..n]), log[n]);
    }
  }

  /** Shape of every history: a connected path of normative edges from PROPOSED, each
      with its cause and guard, ended by at most one violation record. */
  lemma {:induction false} Shape(id: Identity, log: seq<Entry>, i: nat)
    requires Legal(id, log) && i < |log|
    ensures Link(StateBefore(log, i), log[i])
    ensures log[i].record.resulting == Violation ==> i == |log| - 1
  {
    LegalPrefix(id, log, i + 1);
    var m := After(id, log[..i]);
    assert log[..i + 1][..i] == log[..i];
    FittingEntry(m, log[i]);
    MachineOfLegal(id, log[..i]);
    if i + 1 < |log| {
      LegalPrefix(id, log, i + 2);
      assert log[..i + 2][..i + 1] == log[..i + 1];
      MachineOfLegal(id, log[..i + 1]);
    }
  }

  /** A COMPLETE record comes from VERIFYING with all four completion facts; after a
      COMPLETE or SAFE_STOP record at most one more is ever added, a violation. */
  lemma Endings(id: Identity, log: seq<Entry>, i: nat)
    requires Legal(id, log) && i < |log|
    ensures log[i].record.resulting == Complete ==>
              && log[i].record.source == Verifying
              && var e := log[i].evidence; e.isFresh && e.authoritative && e.postconditionVerified && e.cardinalityValid
    ensures log[i].record.resulting == Complete || log[i].record.resulting == SafeStop ==>
              |log| <= i + 2 && (i + 1 < |log| ==> log[i + 1].record.resulting == Violation)
  {
    hide ValidAttemptId, NormativeCause, GuardHolds, Legal;
    Shape(id, log, i);
    EdgesAroundEnd(log[i].record.source, log[i].record.resulting, log[i].evidence);
    if i + 1 < |log| {
      Shape(id, log, i + 1);
      EdgesAroundEnd(log[i + 1].record.source, log[i + 1].record.resulting, log[i + 1].evidence);
      if i + 2 < |log| {
        Shape(id, log, i + 2);
      }
    }
  }

  /** The normative edges around the two ends of a history. */
  lemma EdgesAroundEnd(source: State, target: State, e: Evidence)
    ensures target == Complete && NormativeCause(source, target).Some? && GuardHolds(source, target, e) ==>
              source == Verifying && e.isFresh && e.authoritative && e.postconditionVerified && e.cardinalityValid
    ensures source == Complete || source == SafeStop ==> NormativeCause(source, target).None?
  {
  }

  /** Every attempt id of a history is a valid one. */
  lemma {:induction false} AttemptsValid(id: Identity, log: seq<Entry>)
    requires Legal(id, log)
    ensures forall x | x in Attempts(log) :: ValidAttemptId(x)
  {
    if |log| > 0 {
      hide ValidAttemptId, After, Link;
      var n := |log| - 1;
      AttemptsValid(id, log[..n]);
      Shape(id, log, n);
      LinkedAttempt(StateBefore(log, n), log[n]);
    }
  }

  lemma LinkedAttempt(source: State, e: Entry)
    requires Link(source, e)
    ensures e.record.attemptId.Some? ==> ValidAttemptId(e.record.attemptId.value)
  {
    hide ValidAttemptId;
  }

  // ---------- Dispatches ----------

  predicate BeforeDispatch(s: State) {
    s == Proposed || s == Authorized || s == Prepared
  }

  predicate AfterDispatch(s: State) {
    !BeforeDispatch(s) && s != SafeStop && s != Violation
  }

  /** How a normative edge can cross the first dispatch. */
  lemma EdgesAroundDispatch(source: State, target: State)
    requires NormativeCause(source, target).Some?
    ensures BeforeDispatch(target) ==> BeforeDispatch(source)
    ensures AfterDispatch(target) ==> target == InFlight || AfterDispatch(source)
    ensures target == InFlight ==> source == Prepared || source == Retryable
    ensures target == Retryable ==> source == InFlight || source == Reconciling
  {
  }

  predicate Dispatched(log: seq<Entry>, n: nat)
    requires n <= |log|
  {
    exists k :: 0 <= k < n && log[k].record.resulting == InFlight
  }

  lemma DispatchedStep(log: seq<Entry>, n: nat)
    requires n < |log|
    ensures Dispatched(log, n + 1) <==> Dispatched(log, n) || log[n].record.resulting == InFlight
  {
  }

  lemma StepAroundDispatch(id: Identity, log: seq<Entry>, i: nat)
    requires Legal(id, log) && i < |log|
    ensures BeforeDispatch(StateBefore(log, i + 1)) ==>
              BeforeDispatch(StateBefore(log, i)) && log[i].record.resulting != InFlight
    ensures AfterDispatch(StateBefore(log, i + 1)) ==>
              log[i].record.resulting == InFlight || AfterDispatch(StateBefore(log, i))
  {
    hide ValidAttemptId, GuardHolds, NormativeCause;
    Shape(id, log, i);
    if log[i].record.resulting != Violation {
      EdgesAroundDispatch(StateBefore(log, i), log[i].record.resulting);
    }
  }

  /** Until the first entry into IN_FLIGHT a history is in its preparation states, or
      stopped; after it, never in them again. */
  lemma {:induction false} DispatchPhases(id: Identity, log: seq<Entry>, n: nat)
    requires Legal(id, log) && n <= |log|
    ensures BeforeDispatch(StateBefore(log, n)) ==> !Dispatched(log, n)
    ensures AfterDispatch(StateBefore(log, n)) ==> Dispatched(log, n)
    decreases n
  {
    hide Legal;
    if n > 0 {
      hide BeforeDispatch, AfterDispatch, Dispatched;
      DispatchPhases(id, log, n - 1);
      StepAroundDispatch(id, log, n - 1);
      DispatchedStep(log, n - 1);
    }
  }

  /** An action completes only after at least one attempt. */
  lemma CompleteNeedsAttempt(id: Identity, log: seq<Entry>, i: nat)
    requires Legal(id, log) && i < |log| && log[i].record.resulting == Complete
    ensures exists k :: 0 <= k < i && log[k].record.resulting == InFlight
  {
    Endings(id, log, i);
    Shape(id, log, i);
    DispatchPhases(id, log, i);
  }

  /** Every entry into IN_FLIGHT after an earlier one is preceded, strictly between the
      two, by its own entry into RETRYABLE. */
  lemma RetryHasRetryable(id: Identity, log: seq<Entry>, i: nat, j: nat)
    requires Legal(id, log) && i < j < |log|
    requires log[i].record.resulting == InFlight && log[j].record.resulting == InFlight
    ensures i < j - 1 && log[j - 1].record.resulting == Retryable
  {
    hide ValidAttemptId, GuardHolds, NormativeCause;
    Shape(id, log, j);
    EdgesAroundDispatch(StateBefore(log, j), InFlight);
    DispatchPhases(id, log, j);
  }

  /** Every retry is justified: between an INDETERMINATE entry and the next entry into
      IN_FLIGHT lies a step from RECONCILING to RETRYABLE whose stored evidence is
      fresh, authoritative and about the exact identity. */
  lemma RetryIsJustified(id: Identity, log: seq<Entry>, i: nat, j: nat)
    requires Legal(id, log) && i < j < |log|
    requires log[i].record.resulting == Indeterminate && log[j].record.resulting == InFlight
    requires forall k | i < k < j :: log[k].record.resulting != InFlight
    ensures exists k :: i < k < j
              && log[k].record.source == Reconciling && log[k].record.resulting == Retryable
              && log[k].evidence.isFresh && log[k].evidence.authoritative && log[k].evidence.exactIdentity
  {
    hide ValidAttemptId, NormativeCause, Legal;
    Shape(id, log, i);
    assert log[i].record.source == InFlight by { EdgeIntoIndeterminate(log[i].record.source); }
    assert log[i - 1].record.resulting == InFlight;
    Shape(id, log, j);
    EdgesAroundDispatch(StateBefore(log, j), InFlight);
    DispatchPhases(id, log, j);
    assert log[j - 1].record.resulting == Retryable;
    Shape(id, log, j - 1);
    EdgesAroundDispatch(StateBefore(log, j - 1), Retryable);
    assert log[j - 1].record.source == Reconciling;
  }

  lemma EdgeIntoIndeterminate(source: State)
    requires NormativeCause(source, Indeterminate).Some?
    ensures source == InFlight
  {
  }
}
