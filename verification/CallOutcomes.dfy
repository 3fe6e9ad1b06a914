/** What each call that writes answers on a ledger some calls have led to, what the log and
    the snapshots show afterwards, and what they still show of everything else. Told of
    what can be read before the call, with every written field spelled out. */
module CallOutcomes {
  import opened Wrappers
  import opened CanonicalJson
  import opened StateMachine
  import opened Histories
  import opened Contracts
  import opened LedgerTables
  import opened LedgerCalls
  import opened LedgerChecker
  import opened LedgerProtocol
  import opened LiveLedger
  import opened LiveInvariant
  import opened LedgerRefinement
  import opened LedgerReachable
  import opened Grammars
  import opened TransitionRules
  import opened Appending
  import LedgerSimulation

  // ---------- What is written ----------

  function WordOfState(s: State): string {
    if s == Proposed then "PROPOSED"
    else if s == Authorized then "AUTHORIZED"
    else if s == Prepared then "PREPARED"
    else if s == InFlight then "IN_FLIGHT"
    else if s == Indeterminate then "INDETERMINATE"
    else if s == Reconciling then "RECONCILING"
    else if s == Retryable then "RETRYABLE"
    else if s == Verifying then "VERIFYING"
    else if s == Complete then "COMPLETE"
    else if s == SafeStop then "SAFE_STOP"
    else "VIOLATION"
  }

  function WordOfCause(c: Cause): string {
    if c == AuthorityConfirmed then "authority_confirmed"
    else if c == InvariantViolation then "invariant_violation"
    else if c == PreparationDurable then "preparation_durable"
    else if c == SafeStopSelected then "safe_stop_selected"
    else if c == AttemptDelivered then "attempt_delivered"
    else if c == SuccessReceipt then "success_receipt"
    else if c == PrecommitRejection then "precommit_rejection"
    else if c == AmbiguousOutcome then "ambiguous_outcome"
    else if c == ReconciliationStarted then "reconciliation_started"
    else if c == ExactEffectFound then "exact_effect_found"
    else if c == ConclusiveAbsence then "conclusive_absence"
    else if c == ReconciliationInconclusive then "reconciliation_inconclusive"
    else if c == RedispatchAuthorized then "redispatch_authorized"
    else if c == FreshPostcondition then "fresh_postcondition"
    else if c == VerificationIncomplete then "verification_incomplete"
    else "postcondition_failed"
  }

  function TextOrNull(s: Option<string>): Json {
    match s
    case Some(text) => Str(text)
    case None => Null
  }

  /** The twelve facts of a state-transition event. */
  function Facts(r: Record, e: Evidence): map<string, Json> {
    map["source_state" := Str(WordOfState(r.source)),
        "attempted_state" := Str(WordOfState(r.attempted)),
        "resulting_state" := Str(WordOfState(r.resulting)),
        "evidence_id" := Str(r.evidenceId),
        "cause" := Str(WordOfCause(r.cause)),
        "fresh" := Bool(e.isFresh),
        "authoritative" := Bool(e.authoritative),
        "exact_identity" := Bool(e.exactIdentity),
        "postcondition_verified" := Bool(e.postconditionVerified),
        "cardinality_valid" := Bool(e.cardinalityValid),
        "attempt_id" := TextOrNull(r.attemptId),
        "violation_reason" := TextOrNull(r.violationReason)]
  }

  lemma StatesWorded(s: State)
    ensures StateName(s) == WordOfState(s)
  {
  }

  lemma OutcomesWorded(c: Cause)
    requires OutcomeCause(c)
    ensures CauseName(c) == WordOfCause(c)
  {
  }

  lemma SettlingsWorded(c: Cause)
    requires SettlingCause(c)
    ensures CauseName(c) == WordOfCause(c)
  {
  }

  lemma OthersWorded(c: Cause)
    requires !OutcomeCause(c) && !SettlingCause(c)
    ensures CauseName(c) == WordOfCause(c)
  {
  }

  lemma CausesWorded(c: Cause)
    ensures CauseName(c) == WordOfCause(c)
  {
    hide CauseName, WordOfCause;
    if OutcomeCause(c) {
      OutcomesWorded(c);
    } else if SettlingCause(c) {
      SettlingsWorded(c);
    } else {
      OthersWorded(c);
    }
  }

  lemma FactSpelled(r: Record, e: Evidence, k: FactKey)
    ensures KeyName(k) in Facts(r, e) && Facts(r, e)[KeyName(k)] == FactValue(r, e, k)
  {
    StatesWorded(r.source);
    StatesWorded(r.attempted);
    StatesWorded(r.resulting);
    CausesWorded(r.cause);
    hide StateName, CauseName, WordOfState, WordOfCause;
  }

  lemma FactKeysSpelled(r: Record, e: Evidence, name: string)
    requires name in Facts(r, e)
    ensures exists k: FactKey :: KeyName(k) == name
  {
    hide WordOfState, WordOfCause;
    assert KeyName(AttemptKey) == "attempt_id" && KeyName(AttemptedKey) == "attempted_state";
    assert KeyName(CauseKey) == "cause" && KeyName(EvidenceIdKey) == "evidence_id";
    assert KeyName(ResultingKey) == "resulting_state" && KeyName(SourceKey) == "source_state";
    assert KeyName(ReasonKey) == "violation_reason" && KeyName(FreshKey) == "fresh";
    assert KeyName(AuthoritativeKey) == "authoritative" && KeyName(ExactIdentityKey) == "exact_identity";
    assert KeyName(PostconditionKey) == "postcondition_verified" && KeyName(CardinalityKey) == "cardinality_valid";
  }

  lemma FactsSpelled(r: Record, e: Evidence)
    ensures TransitionFacts(r, e) == Facts(r, e)
  {
    hide Facts, TransitionFacts, KeyName, FactValue;
    FactEntries(r, e);
    var facts, spelled := TransitionFacts(r, e), Facts(r, e);
    forall name | name in facts ensures name in spelled && spelled[name] == facts[name] {
      var k: FactKey :| name == KeyName(k);
      FactSpelled(r, e, k);
    }
    forall name | name in spelled ensures name in facts {
      FactKeysSpelled(r, e, name);
    }
  }

  /** The links of an event of one operation. */
  function LinksTo(id: Identity, attemptId: Option<string>): Links {
    Links(
      actionId := Some(id.actionId),
      attemptId := attemptId,
      operationKey := Some(id.operationKey),
      effectId := None,
      intentDigest := Some(id.intentDigest),
      authorityId := Some(id.authorityId),
      workflowId := None,
      faultId := None)
  }

  /** The log with one more lifecycle event. */
  function Logged(
    events: seq<Event>, tick: int, kind: EventKind, id: Identity, attemptId: Option<string>, facts: map<string, Json>)
    : seq<Event>
  {
    events + [Event(|events| + 1, tick, kind, LinksTo(id, attemptId), facts)]
  }

  /** The log after a step that made `r`: a prepared event first when it entered PREPARED. */
  function LoggedStep(events: seq<Event>, tick: int, id: Identity, r: Record, e: Evidence): seq<Event> {
    var before := if r.resulting == Prepared then Logged(events, tick, OperationPrepared, id, None, map[]) else events;
    Logged(before, tick, StateTransition, id, r.attemptId, Facts(r, e))
  }

  /** The snapshot after a step that made `r`, logged at `n`. */
  function Stepped(s: Snapshot, r: Record, e: Evidence, n: int): Snapshot {
    Snapshot(
      s.identity,
      r.resulting,
      s.createdSeq,
      n,
      s.attemptIds + (if r.resulting == InFlight && r.attemptId.Some? then [r.attemptId.value] else []),
      s.history + [Persisted(r, e, n)])
  }

  lemma LifecycleSpelled(
    events: seq<Event>, tick: nat, kind: EventKind, id: Identity, attemptId: Option<string>, facts: map<string, Json>)
    ensures events + [Lifecycle(events, tick, kind, id, attemptId, facts)]
         == Logged(events, tick, kind, id, attemptId, facts)
  {
  }

  lemma StepSpelled(events: seq<Event>, id: Identity, r: Record, e: Evidence, tick: nat)
    requires r.resulting == Prepared ==> r.violationReason.None?
    ensures StepEvents(events, id, r, e, tick) == LoggedStep(events, tick, id, r, e)
  {
    hide TransitionFacts, Facts, Lifecycle, Logged;
    FactsSpelled(r, e);
    LifecycleSpelled(events, tick, OperationPrepared, id, None, map[]);
    var before := if r.resulting == Prepared then Logged(events, tick, OperationPrepared, id, None, map[]) else events;
    LifecycleSpelled(before, tick, StateTransition, id, r.attemptId, TransitionFacts(r, e));
  }

  lemma SnapshotStepped(op: LiveOp, s: Step, e: Evidence, candidate: Identity, n: int)
    requires s.machine.identity == op.machine.identity && s.machine.state == s.record.resulting
    requires s.machine.attemptIds == op.machine.attemptIds
      + (if s.record.resulting == InFlight && s.record.attemptId.Some? then [s.record.attemptId.value] else [])
    ensures SnapshotOfLive(NextOp(op, s, e, candidate, n)) == Stepped(SnapshotOfLive(op), s.record, e, n)
  {
    var next := NextOp(op, s, e, candidate, n);
    assert PersistedOfLog(next.log) == PersistedOfLog(op.log) + [Persisted(s.record, e, n)];
  }

  // ---------- The live ledger, read ----------

  function LiveRead(v: Live, a: string): Result<Snapshot, LedgerError> {
    if a in v.ops then Ok(SnapshotOfLive(v.ops[a])) else Err(OperationNotFound)
  }

  /** The tables read as the live ledger: its log, and every action's snapshot. */
  ghost predicate Reads(t: Tables, v: Live) {
    EventsOf(t) == Ok(v.events) && forall a :: SnapshotOf(t, a) == LiveRead(v, a)
  }

  lemma RepReads(t: Tables, v: Live)
    requires Rep(t, v) && Inv(v)
    ensures Reads(t, v)
  {
    hide Rep, Inv, EventsOf, SnapshotOf, SnapshotOfLive, NextSeq, LoadMachine;
    LogRead(t, v);
    forall a ensures SnapshotOf(t, a) == LiveRead(v, a) {
      MachineRead(t, v, a);
    }
  }

  /** The events a call may come behind. */
  predicate TickAfter(events: seq<Event>, tick: int) {
    |events| > 0 ==> events[|events| - 1].tick <= tick
  }

  lemma TickExact(events: seq<Event>, tick: nat)
    ensures TickAfter(events, tick) <==> tick >= LastTick(events)
  {
  }

  /** What a step leaves of the live ledger: the log with its events, the stepped snapshot,
      and every other action as it was. */
  lemma CommitRead(v: Live, mid: seq<Event>, attempts: set<string>, a: string, s: Step, target: State, e: Evidence,
                   candidate: Identity, attemptId: Option<string>, tick: nat)
    requires a in v.ops && StepOf(v.ops[a], s, target, e, candidate, attemptId)
    ensures var after := CommitStep(v.(events := mid, attempts := attempts), a, s, e, candidate, tick);
            && after.events == LoggedStep(mid, tick, v.ops[a].machine.identity, s.record, e)
            && LiveRead(after, a) == Ok(Stepped(SnapshotOfLive(v.ops[a]), s.record, e, |after.events|))
            && forall b | b != a :: LiveRead(after, b) == LiveRead(v, b)
  {
    hide TakeStep, ValidAttemptId, ValidEvidenceId, StepEvents, LoggedStep, Stepped, SnapshotOfLive, Fits, Link;
    StepFits(v.ops[a], s, target, e, candidate, attemptId, 0);
    FittingEntry(v.ops[a].machine, Entry(s.record, e, candidate, 0));
    PreparedWithoutReason(v.ops[a].machine.state, Entry(s.record, e, candidate, 0));
    StepSpelled(mid, v.ops[a].machine.identity, s.record, e, tick);
    var events := StepEvents(mid, v.ops[a].machine.identity, s.record, e, tick);
    SnapshotStepped(v.ops[a], s, e, candidate, |events|);
    var after := CommitStep(v.(events := mid, attempts := attempts), a, s, e, candidate, tick);
    assert after.ops[a] == NextOp(v.ops[a], s, e, candidate, |events|);
  }

  lemma PreparedWithoutReason(source: State, e: Entry)
    requires Link(source, e)
    ensures e.record.resulting == Prepared ==> e.record.violationReason.None?
    ensures e.record.resulting == InFlight ==> e.record.attemptId.Some?
  {
    hide NormativeCause, GuardHolds, ValidAttemptId;
  }

  /** What can be read about one action: the log and its snapshot. */
  datatype Reading = Reading(events: seq<Event>, snapshot: Result<Snapshot, LedgerError>)

  function LiveReading(v: Live, a: string): Reading {
    Reading(v.events, LiveRead(v, a))
  }

  // ---------- Registering ----------

  /** An action is registered once, not before the last tick, and its proposal is logged. */
  predicate RegisterTold(before: Reading, after: Reading, outcome: Outcome, id: Identity, tick: int) {
    if before.snapshot.Ok? then outcome == Refused(DuplicateOperation) && after == before
    else if !TickAfter(before.events, tick) then outcome == Refused(EventSequence) && after == before
    else
      var n := |before.events| + 1;
      var s := Snapshot(id, Proposed, n, n, [], []);
      && outcome == Registered(s)
      && after == Reading(Logged(before.events, tick, ActionProposed, id, None, map[]), Ok(s))
  }

  lemma LiveRegisterTold(v: Live, id: Identity, tick: nat)
    ensures var (after, outcome) := LiveRegister(v, id, tick);
            && RegisterTold(LiveReading(v, id.actionId), LiveReading(after, id.actionId), outcome, id, tick)
            && forall b | b != id.actionId :: LiveRead(after, b) == LiveRead(v, b)
  {
    hide Lifecycle, Logged;
    TickExact(v.events, tick);
    LifecycleSpelled(v.events, tick, ActionProposed, id, None, map[]);
  }

  // ---------- Transitions ----------

  /** The record keeps what the call gave and the state it found. */
  predicate Records(s: Snapshot, target: State, e: Evidence, attemptId: Option<string>, r: Record) {
    && r.source == s.state && r.attempted == target && r.evidenceId == e.evidenceId && r.cause == e.cause
    && r.attemptId == attemptId
  }

  /** A call that returns: its cause departs from the snapshot's state, is supported and
      leads to the target, under the snapshot's identity. */
  predicate Returns(s: Snapshot, target: State, e: Evidence, candidate: Identity) {
    candidate == s.identity && Departs(e.cause, s.state) && Supported(e) && target == Destination(e.cause)
  }

  function Reason(target: State): Option<string> {
    if target == Violation then Some("invariant " + "violation reported") else None
  }

  /** A refusal that finds a terminal violation changes nothing. */
  predicate TerminalTold(
    before: Reading, after: Reading, outcome: Outcome, target: State, e: Evidence, attemptId: Option<string>)
    requires before.snapshot.Ok?
  {
    && after == before && outcome.Refused? && outcome.error.InvalidTransition?
    && Records(before.snapshot.value, target, e, attemptId, outcome.error.record)
    && outcome.error.record.resulting == Violation
  }

  /** A refusal in any other state is logged and leaves the action in VIOLATION. */
  predicate ViolationTold(
    before: Reading, after: Reading, outcome: Outcome, target: State, e: Evidence, attemptId: Option<string>, tick: int)
    requires before.snapshot.Ok?
  {
    && outcome.Refused? && outcome.error.InvalidTransition?
    && var s, r := before.snapshot.value, outcome.error.record;
    && Records(s, target, e, attemptId, r) && r.resulting == Violation && r.violationReason.Some?
    && var events := Logged(before.events, tick, StateTransition, s.identity, attemptId, Facts(r, e));
    after == Reading(events, Ok(Stepped(s, r, e, |events|)))
  }

  predicate TransitionTold(
    before: Reading, after: Reading, outcome: Outcome, target: State, e: Evidence, candidate: Identity, tick: int)
  {
    if !EvidenceName(e.evidenceId) then outcome == Refused(InvalidArgument) && after == before
    else if target == InFlight then outcome == Refused(DispatchRequired) && after == before
    else if before.snapshot.Err? then outcome == Refused(OperationNotFound) && after == before
    else
      var s := before.snapshot.value;
      if s.state == Violation then TerminalTold(before, after, outcome, target, e, None)
      else if !TickAfter(before.events, tick) then outcome == Refused(EventSequence) && after == before
      else if Returns(s, target, e, candidate) then
        var r := Record(s.state, target, target, e.evidenceId, e.cause, None, Reason(target));
        var events := LoggedStep(before.events, tick, s.identity, r, e);
        && outcome == Moved(Persisted(r, e, |events|))
        && after == Reading(events, Ok(Stepped(s, r, e, |events|)))
      else ViolationTold(before, after, outcome, target, e, None, tick)
  }

  /** The step behind a call, told of the snapshot before it. */
  lemma StepTold(m: Machine, target: State, e: Evidence, candidate: Identity, attemptId: Option<string>)
    requires m.state != Violation && (attemptId.Some? ==> ValidAttemptId(attemptId.value))
    requires attemptId.Some? <==> target == InFlight
    ensures var s := TakeStep(m, target, e, candidate, attemptId);
            && s.record.source == m.state && s.record.attempted == target && s.record.evidenceId == e.evidenceId
            && s.record.cause == e.cause && s.record.attemptId == attemptId
            && (s.raised ==> s.record.resulting == Violation && s.record.violationReason.Some?)
            && (!s.raised ==> s.record.resulting == target && s.record.violationReason == Reason(target))
            && (!s.raised <==>
                  && candidate == m.identity && Departs(e.cause, m.state) && Supported(e)
                  && target == Destination(e.cause)
                  && (attemptId.Some? ==> attemptId.value !in m.attemptIds))
  {
    hide TakeStep, TokenAfter, ValidAttemptId, Reason;
    RecordKeepsInputs(m, target, e, candidate, attemptId);
    ReturnsExactly(m, target, e, candidate, attemptId);
    SucceedsExactly(m, target, e, candidate, attemptId);
    if attemptId.Some? { TokenIsAttempt(attemptId.value); }
    if TakeStep(m, target, e, candidate, attemptId).raised {
      RaisesExactly(m, target, e, candidate, attemptId);
    } else {
      ReportWorded(m, target, e, candidate, attemptId);
    }
  }

  lemma TokenIsAttempt(x: string)
    ensures ValidAttemptId(x) <==> TokenAfter("attempt-", x)
  {
    hide PrefixedToken, TokenAfter;
    TokenExact("attempt-", x);
  }

  lemma ReportWorded(m: Machine, target: State, e: Evidence, candidate: Identity, attemptId: Option<string>)
    requires !TakeStep(m, target, e, candidate, attemptId).raised
    ensures TakeStep(m, target, e, candidate, attemptId).record.violationReason == Reason(target)
  {
    hide ChangedFields, EdgeFailure, AttemptFailure;
    assert "invariant" + " " == "invariant ";
    ReportedEdge(m, target, e);
  }

  lemma ReportedEdge(m: Machine, target: State, e: Evidence)
    ensures target == Violation && e.cause != InvariantViolation ==> EdgeFailure(m.state, target, e).Some?
  {
  }

  lemma TerminalRecord(m: Machine, target: State, e: Evidence, candidate: Identity, attemptId: Option<string>)
    requires m.state == Violation && (attemptId.Some? ==> ValidAttemptId(attemptId.value))
    ensures var r := TakeStep(m, target, e, candidate, attemptId).record;
            r.source == Violation && r.attempted == target && r.resulting == Violation && r.evidenceId == e.evidenceId
            && r.cause == e.cause && r.attemptId == attemptId
  {
    hide ValidAttemptId, ReasonText;
  }

  /** A step that was refused leaves exactly what a logged violation leaves. */
  lemma LiveViolationTold(
    v: Live, a: string, target: State, e: Evidence, candidate: Identity, attemptId: Option<string>, tick: nat)
    requires a in v.ops && v.ops[a].machine.state != Violation && ValidEvidenceId(e.evidenceId)
    requires (attemptId.Some? ==> ValidAttemptId(attemptId.value)) && (attemptId.Some? <==> target == InFlight)
    requires TakeStep(v.ops[a].machine, target, e, candidate, attemptId).raised
    ensures var s := TakeStep(v.ops[a].machine, target, e, candidate, attemptId);
            var after := CommitStep(v, a, s, e, candidate, tick);
            && ViolationTold(LiveReading(v, a), LiveReading(after, a), Refused(InvalidTransition(s.record)), target, e,
                             attemptId, tick)
            && forall b | b != a :: LiveRead(after, b) == LiveRead(v, b)
  {
    hide TakeStep, ValidEvidenceId, ValidAttemptId, CommitStep, Stepped, Facts, Logged;
    StepTold(v.ops[a].machine, target, e, candidate, attemptId);
    assert v.(events := v.events, attempts := v.attempts) == v;
    var s := TakeStep(v.ops[a].machine, target, e, candidate, attemptId);
    CommitRead(v, v.events, v.attempts, a, s, target, e, candidate, attemptId, tick);
  }

  /** A transition that returned. */
  lemma LiveMoveTold(v: Live, a: string, target: State, e: Evidence, candidate: Identity, tick: nat)
    requires a in v.ops && v.ops[a].machine.state != Violation && ValidEvidenceId(e.evidenceId) && target != InFlight
    requires !TakeStep(v.ops[a].machine, target, e, candidate, None).raised
    ensures var s := TakeStep(v.ops[a].machine, target, e, candidate, None);
            var after := CommitStep(v, a, s, e, candidate, tick);
            var r := Record(v.ops[a].machine.state, target, target, e.evidenceId, e.cause, None, Reason(target));
            && s.record == r && after.events == LoggedStep(v.events, tick, v.ops[a].machine.identity, r, e)
            && LiveRead(after, a) == Ok(Stepped(SnapshotOfLive(v.ops[a]), r, e, |after.events|))
            && forall b | b != a :: LiveRead(after, b) == LiveRead(v, b)
  {
    hide TakeStep, ValidEvidenceId, CommitStep, LoggedStep, Stepped, Reason;
    StepTold(v.ops[a].machine, target, e, candidate, None);
    assert v.(events := v.events, attempts := v.attempts) == v;
    var s := TakeStep(v.ops[a].machine, target, e, candidate, None);
    CommitRead(v, v.events, v.attempts, a, s, target, e, candidate, None, tick);
  }

  lemma LiveTransitionTold(v: Live, a: string, target: State, e: Evidence, candidate: Identity, tick: nat)
    ensures var (after, outcome) := LiveTransition(v, a, target, e, candidate, tick);
            && TransitionTold(LiveReading(v, a), LiveReading(after, a), outcome, target, e, candidate, tick)
            && forall b | b != a :: LiveRead(after, b) == LiveRead(v, b)
  {
    hide TakeStep, ValidEvidenceId, EvidenceName, CommitStep, LoggedStep, Stepped, Departs, Supported, Destination,
         Reason, TickAfter, ViolationTold;
    EvidenceNameExact(e.evidenceId);
    TickExact(v.events, tick);
    if ValidEvidenceId(e.evidenceId) && a in v.ops && target != InFlight {
      var m := v.ops[a].machine;
      if m.state == Violation {
        TerminalRecord(m, target, e, candidate, None);
      } else {
        StepTold(m, target, e, candidate, None);
        if TakeStep(m, target, e, candidate, None).raised {
          LiveViolationTold(v, a, target, e, candidate, None, tick);
        } else {
          LiveMoveTold(v, a, target, e, candidate, tick);
        }
      }
    }
  }

  // ---------- Dispatches ----------

  /** A dispatch is permitted exactly for a fresh attempt id of an action in PREPARED or
      RETRYABLE, with the cause that departs from there, and is logged before its
      transition; `taken` says whether any action has the id already. */
  predicate DispatchTold(
    before: Reading, after: Reading, outcome: Outcome, runId: string, a: string, x: string, taken: bool, e: Evidence,
    candidate: Identity, tick: int)
  {
    if !TokenAfter("attempt-", x) || !EvidenceName(e.evidenceId) then
      outcome == Refused(InvalidArgument) && after == before
    else if before.snapshot.Err? then outcome == Refused(OperationNotFound) && after == before
    else
      var s := before.snapshot.value;
      if s.state == Violation then TerminalTold(before, after, outcome, InFlight, e, Some(x))
      else if !TickAfter(before.events, tick) then outcome == Refused(EventSequence) && after == before
      else if !Returns(s, InFlight, e, candidate) || x in s.attemptIds then
        ViolationTold(before, after, outcome, InFlight, e, Some(x), tick)
      else if taken then outcome == Refused(Integrity) && after == before
      else
        var r := Record(s.state, InFlight, InFlight, e.evidenceId, e.cause, Some(x), None);
        var dispatched := Logged(before.events, tick, AttemptDispatched, s.identity, Some(x), map[]);
        var events := Logged(dispatched, tick, StateTransition, s.identity, Some(x), Facts(r, e));
        && outcome == Permitted(Permit(runId, a, x, |before.events| + 1, |before.events| + 2))
        && after == Reading(events, Ok(Stepped(s, r, e, |before.events| + 2)))
  }

  /** A dispatch that was permitted. */
  lemma LivePermitTold(v: Live, a: string, x: string, e: Evidence, candidate: Identity, tick: nat)
    requires a in v.ops && v.ops[a].machine.state != Violation && ValidEvidenceId(e.evidenceId) && ValidAttemptId(x)
    requires !TakeStep(v.ops[a].machine, InFlight, e, candidate, Some(x)).raised
    ensures var s := TakeStep(v.ops[a].machine, InFlight, e, candidate, Some(x));
            var id := v.ops[a].machine.identity;
            var mid := v.events + [Lifecycle(v.events, tick, AttemptDispatched, id, Some(x), map[])];
            var after := CommitStep(v.(events := mid, attempts := v.attempts + {x}), a, s, e, candidate, tick);
            var r := Record(v.ops[a].machine.state, InFlight, InFlight, e.evidenceId, e.cause, Some(x), None);
            && mid == Logged(v.events, tick, AttemptDispatched, id, Some(x), map[])
            && after.events == Logged(mid, tick, StateTransition, id, Some(x), Facts(r, e))
            && |after.events| == |v.events| + 2
            && LiveRead(after, a) == Ok(Stepped(SnapshotOfLive(v.ops[a]), r, e, |after.events|))
            && forall b | b != a :: LiveRead(after, b) == LiveRead(v, b)
  {
    hide TakeStep, ValidEvidenceId, ValidAttemptId, CommitStep, Stepped, Facts, Lifecycle;
    var id := v.ops[a].machine.identity;
    StepTold(v.ops[a].machine, InFlight, e, candidate, Some(x));
    LifecycleSpelled(v.events, tick, AttemptDispatched, id, Some(x), map[]);
    var mid := v.events + [Lifecycle(v.events, tick, AttemptDispatched, id, Some(x), map[])];
    var s := TakeStep(v.ops[a].machine, InFlight, e, candidate, Some(x));
    CommitRead(v, mid, v.attempts + {x}, a, s, InFlight, e, candidate, Some(x), tick);
  }

  lemma LiveDispatchTold(v: Live, a: string, x: string, e: Evidence, candidate: Identity, tick: nat)
    ensures var (after, outcome) := LiveDispatch(v, a, x, e, candidate, tick);
            && DispatchTold(LiveReading(v, a), LiveReading(after, a), outcome, v.runId, a, x, x in v.attempts, e,
                            candidate, tick)
            && forall b | b != a :: LiveRead(after, b) == LiveRead(v, b)
  {
    hide TakeStep, ValidEvidenceId, EvidenceName, ValidAttemptId, TokenAfter, CommitStep, Logged, Lifecycle, Stepped,
         Departs, Supported, Destination, TickAfter, ViolationTold, Facts;
    EvidenceNameExact(e.evidenceId);
    TokenIsAttempt(x);
    TickExact(v.events, tick);
    if ValidAttemptId(x) && ValidEvidenceId(e.evidenceId) && a in v.ops {
      var m := v.ops[a].machine;
      if m.state == Violation {
        TerminalRecord(m, InFlight, e, candidate, Some(x));
      } else {
        StepTold(m, InFlight, e, candidate, Some(x));
        if TakeStep(m, InFlight, e, candidate, Some(x)).raised {
          LiveViolationTold(v, a, InFlight, e, candidate, Some(x), tick);
        } else {
          LivePermitTold(v, a, x, e, candidate, tick);
        }
      }
    }
  }

  // ---------- Appended events ----------

  /** An event of the scenario's own is taken exactly when it is well formed, of no managed
      kind and next in the log; it changes no action. */
  ghost predicate AppendTold(before: seq<Event>, after: seq<Event>, outcome: Outcome, e: Event) {
    if !WellFormed(e) then outcome == Refused(InvalidArgument) && after == before
    else if Lifecycled(e.kind) then outcome == Refused(ManagedEvent) && after == before
    else if e.seqNo != |before| + 1 || !TickAfter(before, e.tick) then
      outcome == Refused(EventSequence) && after == before
    else outcome == Appended(e) && after == before + [e]
  }

  lemma LiveAppendTold(v: Live, e: Event)
    ensures var (after, outcome) := LiveAppend(v, e);
            && AppendTold(v.events, after.events, outcome, e)
            && forall b :: LiveRead(after, b) == LiveRead(v, b)
  {
    hide WellFormed, ValidEvent, Managed, Lifecycled;
    FormExact(e);
    if ValidEvent(e) {
      assert e.tick >= 0 by { TickOfValid(e); }
      TickExact(v.events, e.tick);
    }
  }

  lemma TickOfValid(e: Event)
    requires ValidEvent(e)
    ensures e.tick >= 0
  {
    hide ValidEvidenceMap;
  }

  // ---------- On the stored tables ----------

  /** What the tables show of one action. */
  function StoredReading(t: Tables, a: string): Reading
    requires EventsOf(t).Ok?
  {
    Reading(EventsOf(t).value, SnapshotOf(t, a))
  }

  /** Every other action reads as before. */
  ghost predicate OthersKept(t: Tables, u: Tables, a: string) {
    forall b | b != a :: SnapshotOf(u, b) == SnapshotOf(t, b)
  }

  /** Some attempt row has the id. */
  predicate Taken(t: Tables, x: string) {
    exists i | 0 <= i < |t.attempts| :: t.attempts[i].attemptId == x
  }

  lemma TakenExact(t: Tables, v: Live, x: string)
    requires Rep(t, v) && Inv(v)
    ensures Taken(t, x) <==> x in v.attempts
  {
    hide Inv, Rep, RepAttempts, RepTransitions, RepOperations, RepEvents, AttemptRowsOfLog;
    LedgerSimulation.RepParts(t, v);
    if x in v.attempts { LedgerSimulation.IssuedAttempt(t, v, x); }
    if i :| 0 <= i < |t.attempts| && t.attempts[i].attemptId == x {
      LedgerSimulation.StoredAttempt(t, v, t.attempts[i]);
    }
  }

  /** The live ledgers before and after a call on a reachable ledger, and what is read. */
  lemma AroundCall(runId: string, calls: seq<Call>, c: Call) returns (v: Live, w: Live)
    requires !Run(Create(runId), calls).0.closed
    ensures var l := Run(Create(runId), calls).0;
            && OrderInv(v) && !v.closed && v.runId == runId && w == LiveStep(v, c).0
            && Perform(l, c).1 == LiveStep(v, c).1
            && Reads(l.tables, v) && Reads(Perform(l, c).0.tables, w)
            && forall x :: Taken(l.tables, x) <==> x in v.attempts
  {
    var l := Run(Create(runId), calls).0;
    v := Reached(runId, calls);
    ReplayRefinesLive(runId, calls);
    RunIdFixed(Empty(runId), calls);
    hide Inv, Rep, Run, LiveRun, Empty, Create, OrderInv, Perform, LiveStep, Reads, Taken;
    CallSimulated(l, v, c);
    w := LiveStep(v, c).0;
    RepReads(l.tables, v);
    RepReads(Perform(l, c).0.tables, w);
    forall x ensures Taken(l.tables, x) <==> x in v.attempts {
      TakenExact(l.tables, v, x);
    }
  }

  /** What registering answers on any ledger some calls have led to. */
  lemma RegisterAnswered(runId: string, calls: seq<Call>, id: Identity, tick: nat)
    requires !Run(Create(runId), calls).0.closed
    ensures var l := Run(Create(runId), calls).0;
            var (next, outcome) := Perform(l, RegisterCall(id, tick));
            && EventsOf(l.tables).Ok? && EventsOf(next.tables).Ok?
            && RegisterTold(StoredReading(l.tables, id.actionId), StoredReading(next.tables, id.actionId), outcome, id,
                            tick)
            && OthersKept(l.tables, next.tables, id.actionId)
  {
    hide Run, Create, Perform, EventsOf, SnapshotOf, RegisterTold, LiveRegister, LiveRead, OrderInv, Taken;
    var v, w := AroundCall(runId, calls, RegisterCall(id, tick));
    LiveRegisterTold(v, id, tick);
  }

  /** What a transition answers on any ledger some calls have led to. */
  lemma TransitionAnswered(
    runId: string, calls: seq<Call>, a: string, target: State, e: Evidence, candidate: Identity, tick: nat)
    requires !Run(Create(runId), calls).0.closed
    ensures var l := Run(Create(runId), calls).0;
            var (next, outcome) := Perform(l, TransitionCall(a, target, e, candidate, tick));
            && EventsOf(l.tables).Ok? && EventsOf(next.tables).Ok?
            && TransitionTold(StoredReading(l.tables, a), StoredReading(next.tables, a), outcome, target, e, candidate,
                              tick)
            && OthersKept(l.tables, next.tables, a)
  {
    hide Run, Create, Perform, EventsOf, SnapshotOf, TransitionTold, LiveTransition, LiveRead, OrderInv, Taken;
    var v, w := AroundCall(runId, calls, TransitionCall(a, target, e, candidate, tick));
    LiveTransitionTold(v, a, target, e, candidate, tick);
  }

  /** What a dispatch answers on any ledger some calls have led to. */
  lemma DispatchAnswered(
    runId: string, calls: seq<Call>, a: string, x: string, e: Evidence, candidate: Identity, tick: nat)
    requires !Run(Create(runId), calls).0.closed
    ensures var l := Run(Create(runId), calls).0;
            var (next, outcome) := Perform(l, DispatchCall(a, x, e, candidate, tick));
            && EventsOf(l.tables).Ok? && EventsOf(next.tables).Ok?
            && DispatchTold(StoredReading(l.tables, a), StoredReading(next.tables, a), outcome, runId, a, x,
                            Taken(l.tables, x), e, candidate, tick)
            && OthersKept(l.tables, next.tables, a)
  {
    hide Run, Create, Perform, EventsOf, SnapshotOf, DispatchTold, LiveDispatch, LiveRead, OrderInv, Taken;
    var v, w := AroundCall(runId, calls, DispatchCall(a, x, e, candidate, tick));
    LiveDispatchTold(v, a, x, e, candidate, tick);
  }

  /** What an append answers on any ledger some calls have led to. */
  lemma AppendAnswered(runId: string, calls: seq<Call>, e: Event)
    requires !Run(Create(runId), calls).0.closed
    ensures var l := Run(Create(runId), calls).0;
            var (next, outcome) := Perform(l, AppendCall(e));
            && EventsOf(l.tables).Ok? && EventsOf(next.tables).Ok?
            && AppendTold(EventsOf(l.tables).value, EventsOf(next.tables).value, outcome, e)
            && forall b :: SnapshotOf(next.tables, b) == SnapshotOf(l.tables, b)
  {
    hide Run, Create, Perform, EventsOf, SnapshotOf, AppendTold, LiveAppend, LiveRead, OrderInv, Taken;
    var v, w := AroundCall(runId, calls, AppendCall(e));
    LiveAppendTold(v, e);
  }

  // ---------- Reading, closing and reopening ----------

  /** The snapshots of all actions, each once, in the order of their proposals. */
  ghost predicate Lists(t: Tables, ss: seq<Snapshot>) {
    && (forall i | 0 < i < |ss| :: ss[i - 1].createdSeq < ss[i].createdSeq)
    && (forall i | 0 <= i < |ss| :: SnapshotOf(t, ss[i].identity.actionId) == Ok(ss[i]))
    && (forall a | SnapshotOf(t, a).Ok? :: SnapshotOf(t, a).value in ss)
  }

  /** What a call that only reads answers, told of what the tables show. */
  ghost predicate ReadTold(t: Tables, c: Call, outcome: Outcome)
    requires EventsOf(t).Ok?
  {
    match c
    case NextSeqCall => outcome == Sequence(|EventsOf(t).value| + 1)
    case EventsCall => outcome == Log(EventsOf(t).value)
    case OperationCall(a) =>
      outcome == if SnapshotOf(t, a).Ok? then Operation(SnapshotOf(t, a).value) else Refused(OperationNotFound)
    case OperationsCall => outcome.Operations? && Lists(t, outcome.snapshots)
    case ValidateCall => outcome == Done
    case _ => true
  }

  lemma LiveListing(v: Live, i: nat)
    requires Inv(v) && OrderInv(v) && i < |v.order| && v.order[i] in v.ops
    ensures SnapshotOfLive(v.ops[v.order[i]]).identity.actionId == v.order[i]
  {
    hide Inv, OrderInv;
    InvNamesActions(v);
    assert v.ops[v.order[i]].machine.identity.actionId == v.order[i];
  }

  lemma LiveLists(t: Tables, v: Live)
    requires Inv(v) && OrderInv(v) && Reads(t, v)
    ensures forall i | 0 <= i < |v.order| :: v.order[i] in v.ops
    ensures Lists(t, LiveSnapshots(v.order, v.ops))
  {
    hide Inv, EventsOf, SnapshotOf;
    var ss := LiveSnapshots(v.order, v.ops);
    forall i | 0 <= i < |ss| ensures SnapshotOf(t, ss[i].identity.actionId) == Ok(ss[i]) {
      LiveListing(v, i);
    }
    forall a | SnapshotOf(t, a).Ok? ensures SnapshotOf(t, a).value in ss {
      assert a in v.ops;
      var i :| 0 <= i < |v.order| && v.order[i] == a;
      assert ss[i] == SnapshotOfLive(v.ops[a]);
    }
  }

  /** What reading answers on any ledger some calls have led to; it changes nothing. */
  lemma ReadAnswered(runId: string, calls: seq<Call>, c: Call)
    requires !Run(Create(runId), calls).0.closed && !WriteCall(c) && !c.CloseCall? && !c.ReopenCall?
    ensures var l := Run(Create(runId), calls).0;
            && EventsOf(l.tables).Ok? && ReadTold(l.tables, c, Perform(l, c).1) && Perform(l, c).0 == l
  {
    var l := Run(Create(runId), calls).0;
    var v := Reached(runId, calls);
    ReplayRefinesLive(runId, calls);
    hide Inv, Rep, Run, LiveRun, Empty, Create, OrderInv, Reads, EventsOf, SnapshotOf, Lists, Accepted, Append,
         Register, Transition, Dispatch, NextSeq, Snapshots, SnapshotOfLive;
    CallSimulated(l, v, c);
    RepReads(l.tables, v);
    LiveLists(l.tables, v);
    ReadsLive(l.tables, v);
  }

  lemma ReadsLive(t: Tables, v: Live)
    requires Reads(t, v)
    ensures EventsOf(t) == Ok(v.events) && forall a :: SnapshotOf(t, a) == LiveRead(v, a)
  {
    hide EventsOf, SnapshotOf;
  }

  /** Closing leaves the tables and refuses every later call until the ledger is reopened;
      reopening succeeds exactly under the ledger's own run id. */
  lemma HandleAnswered(runId: string, calls: seq<Call>, c: Call, claimed: string)
    ensures var l := Run(Create(runId), calls).0;
            && Perform(l, CloseCall) == (l.(closed := true), Done)
            && (l.closed && !c.CloseCall? && !c.ReopenCall? ==> Perform(l, c) == (l, Refused(ClosedLedger)))
            && Perform(l, ReopenCall(claimed)) ==
                 if claimed == runId then (Ledger(runId, false, l.tables), Done)
                 else (l.(closed := true), Refused(Integrity))
  {
    hide Run, Create, Accepted, Append, Register, Transition, Dispatch, NextSeq, Snapshots, EventsOf, SnapshotOf;
    WriterCheckerAgree(runId, calls, claimed);
  }

  /** A new ledger shows nothing. */
  lemma NothingShown(runId: string, a: string)
    ensures !Create(runId).closed && EventsOf(Create(runId).tables) == Ok([])
    ensures SnapshotOf(Create(runId).tables, a) == Err(OperationNotFound)
  {
  }
}
