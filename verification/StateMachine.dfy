/** The per-action operation state machine: eleven states, the normative edges with
    their causes and guards, and a failure path that records a violation and raises. */
module StateMachine {
  import opened Wrappers

  datatype State =
    | Proposed | Authorized | Prepared | InFlight | Indeterminate | Reconciling
    | Retryable | Verifying | Complete | SafeStop | Violation

  datatype Cause =
    | AuthorityConfirmed | InvariantViolation | PreparationDurable | SafeStopSelected
    | AttemptDelivered | SuccessReceipt | PrecommitRejection | AmbiguousOutcome
    | ReconciliationStarted | ExactEffectFound | ConclusiveAbsence | ReconciliationInconclusive
    | RedispatchAuthorized | FreshPostcondition | VerificationIncomplete | PostconditionFailed

  function StateName(s: State): string {
    match s
    case Proposed => "PROPOSED"
    case Authorized => "AUTHORIZED"
    case Prepared => "PREPARED"
    case InFlight => "IN_FLIGHT"
    case Indeterminate => "INDETERMINATE"
    case Reconciling => "RECONCILING"
    case Retryable => "RETRYABLE"
    case Verifying => "VERIFYING"
    case Complete => "COMPLETE"
    case SafeStop => "SAFE_STOP"
    case Violation => "VIOLATION"
  }

  function CauseName(c: Cause): string {
    match c
    case AuthorityConfirmed => "authority_confirmed"
    case InvariantViolation => "invariant_violation"
    case PreparationDurable => "preparation_durable"
    case SafeStopSelected => "safe_stop_selected"
    case AttemptDelivered => "attempt_delivered"
    case SuccessReceipt => "success_receipt"
    case PrecommitRejection => "precommit_rejection"
    case AmbiguousOutcome => "ambiguous_outcome"
    case ReconciliationStarted => "reconciliation_started"
    case ExactEffectFound => "exact_effect_found"
    case ConclusiveAbsence => "conclusive_absence"
    case ReconciliationInconclusive => "reconciliation_inconclusive"
    case RedispatchAuthorized => "redispatch_authorized"
    case FreshPostcondition => "fresh_postcondition"
    case VerificationIncomplete => "verification_incomplete"
    case PostconditionFailed => "postcondition_failed"
  }

  /** The cause each normative edge requires. */
  function NormativeCause(source: State, target: State): Option<Cause> {
    match (source, target)
    case (Proposed, Authorized) => Some(AuthorityConfirmed)
    case (Proposed, Violation) => Some(InvariantViolation)
    case (Authorized, Prepared) => Some(PreparationDurable)
    case (Authorized, SafeStop) => Some(SafeStopSelected)
    case (Prepared, InFlight) => Some(AttemptDelivered)
    case (InFlight, Verifying) => Some(SuccessReceipt)
    case (InFlight, Retryable) => Some(PrecommitRejection)
    case (InFlight, Indeterminate) => Some(AmbiguousOutcome)
    case (Indeterminate, Reconciling) => Some(ReconciliationStarted)
    case (Reconciling, Verifying) => Some(ExactEffectFound)
    case (Reconciling, Retryable) => Some(ConclusiveAbsence)
    case (Reconciling, SafeStop) => Some(ReconciliationInconclusive)
    case (Retryable, InFlight) => Some(RedispatchAuthorized)
    case (Retryable, SafeStop) => Some(SafeStopSelected)
    case (Verifying, Complete) => Some(FreshPostcondition)
    case (Verifying, Reconciling) => Some(VerificationIncomplete)
    case (Verifying, SafeStop) => Some(PostconditionFailed)
    case _ => None
  }

  datatype Identity = Identity(actionId: string, operationKey: string, intentDigest: string, authorityId: string)

  datatype Evidence = Evidence(
    evidenceId: string,
    cause: Cause,
    isFresh: bool,
    authoritative: bool,
    exactIdentity: bool,
    postconditionVerified: bool,
    cardinalityValid: bool)

  datatype Record = Record(
    source: State,
    attempted: State,
    resulting: State,
    evidenceId: string,
    cause: Cause,
    attemptId: Option<string>,
    violationReason: Option<string>)

  datatype Machine = Machine(identity: Identity, state: State, attemptIds: seq<string>, history: seq<Record>)

  function Fresh(identity: Identity): Machine {
    Machine(identity, Proposed, [], [])
  }

  // ---------- Identifier grammars the machine itself checks ----------

  predicate IsLower(c: char) {
    'a' <= c <= 'z'
  }

  predicate IsTokenChar(c: char) {
    IsLower(c) || '0' <= c <= '9' || c == '-'
  }

  predicate AllTokenChars(s: string) {
    forall c | c in s :: IsTokenChar(c)
  }

  /** `^[a-z][a-z0-9-]{0,127}$` */
  predicate ValidEvidenceId(s: string) {
    1 <= |s| <= 128 && IsLower(s[0]) && AllTokenChars(s)
  }

  /** A prefix, then `[a-z0-9][a-z0-9-]*`, in at most 128 characters. */
  predicate PrefixedToken(prefix: string, s: string) {
    && |prefix| < |s| <= 128 && prefix <= s
    && AllTokenChars(s[|prefix|..]) && s[|prefix|] != '-'
  }

  predicate ValidAttemptId(s: string) {
    PrefixedToken("attempt-", s)
  }

  // ---------- One transition as a function ----------

  function JoinNames(names: seq<string>): string {
    if |names| == 0 then ""
    else if |names| == 1 then names[0]
    else names[0] + ", " + JoinNames(names[1..])
  }

  /** The name as a one-element list when it applies. */
  function When(applies: bool, name: string): seq<string> {
    if applies then [name] else []
  }

  function ChangedFields(identity: Identity, candidate: Identity): seq<string> {
    When(candidate.actionId != identity.actionId, "action_id")
    + When(candidate.operationKey != identity.operationKey, "operation_key")
    + When(candidate.intentDigest != identity.intentDigest, "intent_digest")
    + When(candidate.authorityId != identity.authorityId, "authority_id")
  }

  /** Why a transition is refused; `ReasonText` is the recorded wording. */
  datatype Reason =
    | TerminalViolation
    | IdentityChanged(names: seq<string>)
    | AttemptNotExpected
    | AttemptMissing
    | AttemptInvalid
    | AttemptReused
    | EdgeNotAllowed
    | CauseMismatch(cause: Cause, required: Cause)
    | ReconciliationLacks(names: seq<string>)
    | SafeStopWithoutLookup
    | CompletionLacks(names: seq<string>)
    | ViolationReported

  function ReasonSubject(r: Reason): string {
    match r
    case TerminalViolation => "VIOLATION"
    case IdentityChanged(_) => "immutable"
    case AttemptNotExpected => "attempt_id"
    case AttemptMissing => "entering"
    case AttemptInvalid => "attempt_id"
    case AttemptReused => "attempt_id"
    case EdgeNotAllowed => "transition"
    case CauseMismatch(_, _) => "evidence"
    case ReconciliationLacks(_) => "reconciliation"
    case SafeStopWithoutLookup => "safe"
    case CompletionLacks(_) => "completion"
    case ViolationReported => "invariant"
  }

  function ReasonRemainder(r: Reason): string {
    match r
    case TerminalViolation => "is terminal"
    case IdentityChanged(names) => "identity changed: " + JoinNames(names)
    case AttemptNotExpected => "is only valid when entering IN_FLIGHT"
    case AttemptMissing => "IN_FLIGHT requires a new attempt_id"
    case AttemptInvalid => "is invalid"
    case AttemptReused => "was already used"
    case EdgeNotAllowed => "is not allowed"
    case CauseMismatch(cause, required) =>
      "cause " + CauseName(cause) + " does not match required " + CauseName(required)
    case ReconciliationLacks(names) => "evidence lacks " + JoinNames(names)
    case SafeStopWithoutLookup => "stop requires an attempted exact-identity lookup"
    case CompletionLacks(names) => "evidence lacks " + JoinNames(names)
    case ViolationReported => "violation reported"
  }

  function ReasonText(r: Reason): string {
    ReasonSubject(r) + " " + ReasonRemainder(r)
  }

  function AttemptFailure(m: Machine, target: State, attemptId: Option<string>): Option<Reason> {
    if target != InFlight then
      if attemptId.Some? then Some(AttemptNotExpected) else None
    else if attemptId.None? then Some(AttemptMissing)
    else if !ValidAttemptId(attemptId.value) then Some(AttemptInvalid)
    else if attemptId.value in m.attemptIds then Some(AttemptReused)
    else None
  }

  function ReconciliationMissing(e: Evidence): seq<string> {
    When(!e.isFresh, "fresh") + When(!e.authoritative, "authoritative") + When(!e.exactIdentity, "exact_identity")
  }

  function CompletionMissing(e: Evidence): seq<string> {
    When(!e.isFresh, "fresh") + When(!e.authoritative, "authoritative")
    + When(!e.postconditionVerified, "postcondition_verified") + When(!e.cardinalityValid, "cardinality_valid")
  }

  function GuardFailure(source: State, target: State, e: Evidence): Option<Reason> {
    if source == Reconciling && (target == Verifying || target == Retryable)
       && |ReconciliationMissing(e)| > 0 then Some(ReconciliationLacks(ReconciliationMissing(e)))
    else if source == Reconciling && target == SafeStop && !e.exactIdentity then Some(SafeStopWithoutLookup)
    else if source == Verifying && target == Complete && |CompletionMissing(e)| > 0 then
      Some(CompletionLacks(CompletionMissing(e)))
    else None
  }

  function EdgeFailure(source: State, target: State, e: Evidence): Option<Reason> {
    match NormativeCause(source, target)
    case None => Some(EdgeNotAllowed)
    case Some(required) =>
      if e.cause != required then Some(CauseMismatch(e.cause, required)) else GuardFailure(source, target, e)
  }

  function AttemptForRecord(attemptId: Option<string>): Option<string> {
    if attemptId.Some? && ValidAttemptId(attemptId.value) then attemptId else None
  }

  /** The machine after a call, the record the call made, and whether it raised. */
  datatype Step = Step(machine: Machine, record: Record, raised: bool)

  function Fail(m: Machine, target: State, e: Evidence, attemptId: Option<string>, reason: Reason): Step {
    var record := Record(m.state, target, Violation, e.evidenceId, e.cause, AttemptForRecord(attemptId),
                         Some(ReasonText(reason)));
    Step(m.(state := Violation, history := m.history + [record]), record, true)
  }

  function Accept(m: Machine, target: State, e: Evidence, attemptId: Option<string>): Step {
    var record := Record(m.state, target, target, e.evidenceId, e.cause, attemptId, None);
    var attempts := if attemptId.Some? then m.attemptIds + [attemptId.value] else m.attemptIds;
    Step(m.(state := target, attemptIds := attempts, history := m.history + [record]), record, false)
  }

  function Report(m: Machine, e: Evidence): Step {
    var record := Record(m.state, Violation, Violation, e.evidenceId, e.cause, None,
                         Some(ReasonText(ViolationReported)));
    Step(m.(state := Violation, history := m.history + [record]), record, false)
  }

  function TakeStep(m: Machine, target: State, e: Evidence, candidate: Identity, attemptId: Option<string>): Step {
    var changed := ChangedFields(m.identity, candidate);
    var attemptFailure := AttemptFailure(m, target, attemptId);
    if m.state == Violation then
      Step(m, Record(Violation, target, Violation, e.evidenceId, e.cause, AttemptForRecord(attemptId),
                     Some(ReasonText(TerminalViolation))), true)
    else if |changed| > 0 then Fail(m, target, e, attemptId, IdentityChanged(changed))
    else if attemptFailure.Some? then Fail(m, target, e, attemptId, attemptFailure.value)
    else if target == Violation && e.cause == InvariantViolation then Report(m, e)
    else
      var edgeFailure := EdgeFailure(m.state, target, e);
      if edgeFailure.Some? then Fail(m, target, e, attemptId, edgeFailure.value)
      else Accept(m, target, e, attemptId)
  }

  // ---------- What a call may do ----------

  /** The evidence facts an edge demands. */
  predicate GuardHolds(source: State, target: State, e: Evidence) {
    && (source == Reconciling && (target == Verifying || target == Retryable) ==>
          e.isFresh && e.authoritative && e.exactIdentity)
    && (source == Reconciling && target == SafeStop ==> e.exactIdentity)
    && (source == Verifying && target == Complete ==>
          e.isFresh && e.authoritative && e.postconditionVerified && e.cardinalityValid)
  }

  /** A fresh attempt id exactly when entering IN_FLIGHT, and none otherwise. */
  predicate AttemptFits(m: Machine, target: State, attemptId: Option<string>) {
    if target == InFlight then
      attemptId.Some? && ValidAttemptId(attemptId.value) && attemptId.value !in m.attemptIds
    else attemptId.None?
  }

  /** A normative move: identity, attempt, edge, cause and guard all hold. */
  predicate NormativeMove(m: Machine, target: State, e: Evidence, candidate: Identity, attemptId: Option<string>) {
    && candidate == m.identity
    && AttemptFits(m, target, attemptId)
    && NormativeCause(m.state, target) == Some(e.cause)
    && GuardHolds(m.state, target, e)
  }

  /** An explicit report of an invariant violation under the unchanged identity. */
  predicate ReportedViolation(m: Machine, target: State, e: Evidence, candidate: Identity, attemptId: Option<string>) {
    && m.state != Violation && candidate == m.identity
    && attemptId.None? && target == Violation && e.cause == InvariantViolation
  }

  lemma ChangedFieldsExact(identity: Identity, candidate: Identity)
    ensures |ChangedFields(identity, candidate)| == 0 <==> candidate == identity
  {
    assert candidate == identity <==>
      candidate.actionId == identity.actionId && candidate.operationKey == identity.operationKey
      && candidate.intentDigest == identity.intentDigest && candidate.authorityId == identity.authorityId;
  }

  lemma GuardExact(source: State, target: State, e: Evidence)
    ensures GuardFailure(source, target, e).None? <==> GuardHolds(source, target, e)
  {
    assert |ReconciliationMissing(e)| == 0 <==> e.isFresh && e.authoritative && e.exactIdentity;
    assert |CompletionMissing(e)| == 0 <==>
      e.isFresh && e.authoritative && e.postconditionVerified && e.cardinalityValid;
  }

  /** `transition` returns exactly for a normative move or a reported violation; a
      returning call appends its one record and moves to the target. */
  lemma SucceedsExactly(m: Machine, target: State, e: Evidence, candidate: Identity, attemptId: Option<string>)
    ensures var s := TakeStep(m, target, e, candidate, attemptId);
            !s.raised <==> NormativeMove(m, target, e, candidate, attemptId)
                           || ReportedViolation(m, target, e, candidate, attemptId)
    ensures var s := TakeStep(m, target, e, candidate, attemptId);
            !s.raised ==>
              && s.machine.history == m.history + [s.record]
              && s.record.source == m.state && s.record.resulting == s.machine.state == target
              && s.machine.attemptIds == (if target == InFlight then m.attemptIds + [attemptId.value] else m.attemptIds)
              && (s.record.violationReason.Some? <==> target == Violation)
  {
    hide ReasonText, ChangedFields, ValidAttemptId, GuardFailure, GuardHolds;
    ChangedFieldsExact(m.identity, candidate);
    GuardExact(m.state, target, e);
  }

  /** The three ways a call leaves a live machine: a failure with some reason, a reported
      violation, or an accepted move whose attempt id fits. */
  lemma StepCases(m: Machine, target: State, e: Evidence, candidate: Identity, attemptId: Option<string>)
    requires m.state != Violation
    ensures var s := TakeStep(m, target, e, candidate, attemptId);
            || (exists reason :: s == Fail(m, target, e, attemptId, reason))
            || (s == Report(m, e) && target == Violation && e.cause == InvariantViolation && attemptId.None?)
            || s == Accept(m, target, e, attemptId)
  {
    hide ReasonText, ChangedFields, ValidAttemptId, EdgeFailure, Fail, Report, Accept;
  }

  /** A raising call either finds the machine already in VIOLATION and changes nothing,
      or appends one violation record, moves to VIOLATION and keeps the attempts. */
  lemma RaisesExactly(m: Machine, target: State, e: Evidence, candidate: Identity, attemptId: Option<string>)
    requires TakeStep(m, target, e, candidate, attemptId).raised
    ensures var s := TakeStep(m, target, e, candidate, attemptId);
            && s.machine.identity == m.identity
            && s.machine.state == s.record.resulting == Violation
            && s.record.source == m.state && s.record.attempted == target
            && s.record.violationReason.Some?
            && s.machine.attemptIds == m.attemptIds
            && s.machine.history == (if m.state == Violation then m.history else m.history + [s.record])
  {
    if m.state != Violation {
      hide TakeStep, ReasonText;
      StepCases(m, target, e, candidate, attemptId);
    }
  }

  /** The recorded reason is the first thing wrong, in the order identity, attempt, edge,
      cause, guard. */
  lemma FailureNamed(m: Machine, target: State, e: Evidence, candidate: Identity, attemptId: Option<string>)
    requires TakeStep(m, target, e, candidate, attemptId).raised
    ensures var reason := TakeStep(m, target, e, candidate, attemptId).record.violationReason;
            if m.state == Violation then reason == Some(ReasonText(TerminalViolation))
            else if candidate != m.identity then
              reason == Some(ReasonText(IdentityChanged(ChangedFields(m.identity, candidate))))
            else if target != InFlight && attemptId.Some? then
              reason == Some(ReasonText(AttemptNotExpected))
            else if target == InFlight && attemptId.None? then
              reason == Some(ReasonText(AttemptMissing))
            else if target == InFlight && !ValidAttemptId(attemptId.value) then
              reason == Some(ReasonText(AttemptInvalid))
            else if target == InFlight && attemptId.value in m.attemptIds then
              reason == Some(ReasonText(AttemptReused))
            else if NormativeCause(m.state, target).None? then reason == Some(ReasonText(EdgeNotAllowed))
            else if NormativeCause(m.state, target) != Some(e.cause) then
              reason == Some(ReasonText(CauseMismatch(e.cause, NormativeCause(m.state, target).value)))
            else !GuardHolds(m.state, target, e) && reason == OptionalReason(GuardFailure(m.state, target, e))
  {
    hide ReasonText, ChangedFields, ValidAttemptId, GuardFailure, GuardHolds, NormativeCause;
    ChangedFieldsExact(m.identity, candidate);
    GuardExact(m.state, target, e);
  }

  function OptionalReason(reason: Option<Reason>): Option<string> {
    if reason.Some? then Some(ReasonText(reason.value)) else None
  }

  /** Replaying a record's own inputs is possible because the record keeps them: when
      the attempt id was valid or absent, the record holds it unchanged. */
  lemma RecordKeepsInputs(m: Machine, target: State, e: Evidence, candidate: Identity, attemptId: Option<string>)
    requires attemptId.Some? ==> ValidAttemptId(attemptId.value)
    ensures var r := TakeStep(m, target, e, candidate, attemptId).record;
            r.attempted == target && r.evidenceId == e.evidenceId && r.cause == e.cause && r.attemptId == attemptId
  {
    hide ReasonText, ValidAttemptId;
    if m.state != Violation {
      hide TakeStep;
      StepCases(m, target, e, candidate, attemptId);
    }
  }

  // ---------- The mutable machine ----------

  class OperationStateMachine {
    const identity: Identity
    var state: State
    var attemptIds: seq<string>
    var history: seq<Record>

    function Value(): Machine
      reads this
    {
      Machine(identity, state, attemptIds, history)
    }

    constructor (identity: Identity)
      ensures Value() == Fresh(identity)
    {
      this.identity := identity;
      state, attemptIds, history := Proposed, [], [];
    }

    /** Ok is the returned record, Err the record carried by the raised error. */
    method Transition(target: State, e: Evidence, candidate: Identity, attemptId: Option<string>)
      returns (r: Result<Record, Record>)
      modifies this
      ensures var s := TakeStep(old(Value()), target, e, candidate, attemptId);
              Value() == s.machine && r == if s.raised then Err(s.record) else Ok(s.record)
    {
      hide ReasonText, ChangedFields, ValidAttemptId, EdgeFailure;
      var source := state;
      if source == Violation {
        return Err(Record(source, target, source, e.evidenceId, e.cause, AttemptForRecord(attemptId),
                          Some(ReasonText(TerminalViolation))));
      }
      var changed := ChangedFields(identity, candidate);
      if |changed| > 0 {
        var failed := RecordFailure(target, e, attemptId, IdentityChanged(changed));
        return Err(failed);
      }
      var attemptFailure := AttemptFailure(Value(), target, attemptId);
      if attemptFailure.Some? {
        var failed := RecordFailure(target, e, attemptId, attemptFailure.value);
        return Err(failed);
      }
      if target == Violation && e.cause == InvariantViolation {
        var reported := RecordTransition(target, e, attemptId, Some(ReasonText(ViolationReported)));
        return Ok(reported);
      }
      var edgeFailure := EdgeFailure(source, target, e);
      if edgeFailure.Some? {
        var failed := RecordFailure(target, e, attemptId, edgeFailure.value);
        return Err(failed);
      }
      var record := RecordTransition(target, e, attemptId, None);
      if attemptId.Some? {
        attemptIds := attemptIds + [attemptId.value];
      }
      return Ok(record);
    }

    method RecordTransition(target: State, e: Evidence, attemptId: Option<string>, reason: Option<string>)
      returns (record: Record)
      modifies this`state, this`history
      ensures record == Record(old(state), target, target, e.evidenceId, e.cause, attemptId, reason)
      ensures state == target && history == old(history) + [record]
    {
      record := Record(state, target, target, e.evidenceId, e.cause, attemptId, reason);
      state := target;
      history := history + [record];
    }

    method RecordFailure(target: State, e: Evidence, attemptId: Option<string>, reason: Reason)
      returns (record: Record)
      modifies this`state, this`history
      ensures Step(Value(), record, true) == Fail(old(Value()), target, e, attemptId, reason)
    {
      record := Record(state, target, Violation, e.evidenceId, e.cause, AttemptForRecord(attemptId),
                       Some(ReasonText(reason)));
      state := Violation;
      history := history + [record];
    }
  }
}
