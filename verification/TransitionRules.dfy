/** Which transition calls return, told by their causes: a cause has one destination, the
    states it departs from and the evidence facts that support it. Nothing here looks at
    the table of edges; the calls themselves, and whole histories, are proved to agree. */
module TransitionRules {
  import opened Wrappers
  import opened StateMachine
  import opened Histories
  import opened Grammars

  /** Where a cause leads, whatever state it is reported in. */
  function Destination(c: Cause): State {
    match c
    case AuthorityConfirmed => Authorized
    case PreparationDurable => Prepared
    case AttemptDelivered => InFlight
    case RedispatchAuthorized => InFlight
    case SuccessReceipt => Verifying
    case ExactEffectFound => Verifying
    case PrecommitRejection => Retryable
    case ConclusiveAbsence => Retryable
    case AmbiguousOutcome => Indeterminate
    case ReconciliationStarted => Reconciling
    case VerificationIncomplete => Reconciling
    case FreshPostcondition => Complete
    case SafeStopSelected => SafeStop
    case ReconciliationInconclusive => SafeStop
    case PostconditionFailed => SafeStop
    case InvariantViolation => Violation
  }

  /** The states a cause may be reported in. */
  predicate Departs(c: Cause, source: State) {
    match source
    case Proposed => c == AuthorityConfirmed || c == InvariantViolation
    case Authorized => c == PreparationDurable || c == SafeStopSelected || c == InvariantViolation
    case Prepared => c == AttemptDelivered || c == InvariantViolation
    case InFlight => c == SuccessReceipt || c == PrecommitRejection || c == AmbiguousOutcome || c == InvariantViolation
    case Indeterminate => c == ReconciliationStarted || c == InvariantViolation
    case Reconciling =>
      c == ExactEffectFound || c == ConclusiveAbsence || c == ReconciliationInconclusive || c == InvariantViolation
    case Retryable => c == RedispatchAuthorized || c == SafeStopSelected || c == InvariantViolation
    case Verifying =>
      c == FreshPostcondition || c == VerificationIncomplete || c == PostconditionFailed || c == InvariantViolation
    case Complete => c == InvariantViolation
    case SafeStop => c == InvariantViolation
    case Violation => false
  }

  /** The facts a cause needs behind it. */
  predicate Supported(e: Evidence) {
    match e.cause
    case ExactEffectFound => e.isFresh && e.authoritative && e.exactIdentity
    case ConclusiveAbsence => e.isFresh && e.authoritative && e.exactIdentity
    case ReconciliationInconclusive => e.exactIdentity
    case FreshPostcondition => e.isFresh && e.authoritative && e.postconditionVerified && e.cardinalityValid
    case _ => true
  }

  /** The attempt id a call must and may give. */
  predicate AttemptGiven(m: Machine, target: State, attemptId: Option<string>) {
    if target == InFlight
    then attemptId.Some? && TokenAfter("attempt-", attemptId.value) && attemptId.value !in m.attemptIds
    else attemptId.None?
  }

  /** A transition call returns if and only if the identity is unchanged, the attempt id is
      as it must be, the cause departs from the machine's state, is supported, and leads to
      the target. */
  lemma ReturnsExactly(m: Machine, target: State, e: Evidence, candidate: Identity, attemptId: Option<string>)
    ensures !TakeStep(m, target, e, candidate, attemptId).raised <==>
              && candidate == m.identity && AttemptGiven(m, target, attemptId)
              && Departs(e.cause, m.state) && Supported(e) && target == Destination(e.cause)
  {
    hide TakeStep, PrefixedToken, TokenAfter;
    SucceedsExactly(m, target, e, candidate, attemptId);
    if attemptId.Some? { TokenExact("attempt-", attemptId.value); }
  }

  /** What a returning call leaves behind is fixed by its cause. */
  lemma ReturnLeadsTo(m: Machine, target: State, e: Evidence, candidate: Identity, attemptId: Option<string>)
    ensures var s := TakeStep(m, target, e, candidate, attemptId);
            !s.raised ==>
              && s.machine.state == s.record.resulting == Destination(e.cause)
              && s.record.source == m.state && s.record.cause == e.cause && s.record.evidenceId == e.evidenceId
              && s.record.attemptId == attemptId
              && s.machine.attemptIds == m.attemptIds + (if attemptId.Some? then [attemptId.value] else [])
  {
    hide TakeStep, ValidAttemptId, GuardHolds, NormativeCause;
    SucceedsExactly(m, target, e, candidate, attemptId);
    if !TakeStep(m, target, e, candidate, attemptId).raised {
      ReturnsExactly(m, target, e, candidate, attemptId);
      RecordKeepsInputs(m, target, e, candidate, attemptId);
    }
  }

  /** What became of a delivered attempt: from IN_FLIGHT, apart from reported violations,
      a receipt leads to VERIFYING, a rejection before commit to RETRYABLE, anything else
      to INDETERMINATE, and no other call returns. */
  lemma FromInFlight(m: Machine, target: State, e: Evidence)
    requires m.state == InFlight && target != InFlight && target != Violation
    ensures !TakeStep(m, target, e, m.identity, None).raised <==>
              || (target == Verifying && e.cause == SuccessReceipt)
              || (target == Retryable && e.cause == PrecommitRejection)
              || (target == Indeterminate && e.cause == AmbiguousOutcome)
  {
    hide TakeStep;
    ReturnsExactly(m, target, e, m.identity, None);
  }

  /** From RECONCILING and VERIFYING, the states left by evidence about the effect. */
  lemma FromReconciling(m: Machine, target: State, e: Evidence)
    requires m.state == Reconciling && target != InFlight && target != Violation
    ensures !TakeStep(m, target, e, m.identity, None).raised <==>
              || (&& target == Verifying && e.cause == ExactEffectFound
                  && e.isFresh && e.authoritative && e.exactIdentity)
              || (&& target == Retryable && e.cause == ConclusiveAbsence
                  && e.isFresh && e.authoritative && e.exactIdentity)
              || (target == SafeStop && e.cause == ReconciliationInconclusive && e.exactIdentity)
  {
    hide TakeStep;
    ReturnsExactly(m, target, e, m.identity, None);
  }

  lemma FromVerifying(m: Machine, target: State, e: Evidence)
    requires m.state == Verifying && target != InFlight && target != Violation
    ensures !TakeStep(m, target, e, m.identity, None).raised <==>
              || (&& target == Complete && e.cause == FreshPostcondition
                  && e.isFresh && e.authoritative && e.postconditionVerified && e.cardinalityValid)
              || (target == Reconciling && e.cause == VerificationIncomplete)
              || (target == SafeStop && e.cause == PostconditionFailed)
  {
    hide TakeStep;
    ReturnsExactly(m, target, e, m.identity, None);
  }

  // ---------- What a refusal says ----------

  /** The one cause that leads from a state to a target; towards VIOLATION the table of
      edges asks for a cause only from PROPOSED. */
  lemma EdgeIsCause(source: State, target: State, c: Cause)
    ensures NormativeCause(source, target) == Some(c) <==>
              Departs(c, source) && Destination(c) == target && (target == Violation ==> source == Proposed)
  {
  }

  /** The names, each behind a comma and a space. */
  function Listed(names: seq<string>): string {
    if |names| == 0 then "" else ", " + names[0] + Listed(names[1..])
  }

  lemma {:induction false} JoinListed(names: seq<string>)
    requires |names| > 0
    ensures ", " + JoinNames(names) == Listed(names)
  {
    if |names| > 1 {
      JoinListed(names[1..]);
      assert ", " + (names[0] + ", " + JoinNames(names[1..])) == ", " + names[0] + (", " + JoinNames(names[1..]));
    } else {
      assert Listed(names[1..]) == "";
    }
  }

  lemma {:induction false} ListedAppends(a: seq<string>, b: seq<string>)
    ensures Listed(a + b) == Listed(a) + Listed(b)
  {
    if |a| == 0 {
      assert a + b == b;
    } else {
      assert (a + b)[1..] == a[1..] + b && (a + b)[0] == a[0];
      ListedAppends(a[1..], b);
    }
  }

  lemma ListedWhen(applies: bool, name: string)
    ensures Listed(When(applies, name)) == if applies then ", " + name else ""
  {
    if applies {
      assert [name][1..] == [];
      assert ", " + name + "" == ", " + name;
    }
  }

  function IfAbsent(present: bool, name: string): string {
    if present then "" else ", " + name
  }

  function ChangedText(a: Identity, b: Identity): string {
    IfAbsent(a.actionId == b.actionId, "action_id") + IfAbsent(a.operationKey == b.operationKey, "operation_key")
    + IfAbsent(a.intentDigest == b.intentDigest, "intent_digest")
    + IfAbsent(a.authorityId == b.authorityId, "authority_id")
  }

  function ReconciliationText(e: Evidence): string {
    IfAbsent(e.isFresh, "fresh") + IfAbsent(e.authoritative, "authoritative")
    + IfAbsent(e.exactIdentity, "exact_identity")
  }

  function CompletionText(e: Evidence): string {
    IfAbsent(e.isFresh, "fresh") + IfAbsent(e.authoritative, "authoritative")
    + IfAbsent(e.postconditionVerified, "postcondition_verified") + IfAbsent(e.cardinalityValid, "cardinality_valid")
  }

  lemma ChangedListed(a: Identity, b: Identity)
    ensures Listed(ChangedFields(a, b)) == ChangedText(a, b)
  {
    hide When, Listed;
    var w := When(b.actionId != a.actionId, "action_id");
    var x := When(b.operationKey != a.operationKey, "operation_key");
    var y := When(b.intentDigest != a.intentDigest, "intent_digest");
    var z := When(b.authorityId != a.authorityId, "authority_id");
    ListedAppends(w, x);
    ListedAppends(w + x, y);
    ListedAppends(w + x + y, z);
    ListedWhen(b.actionId != a.actionId, "action_id");
    ListedWhen(b.operationKey != a.operationKey, "operation_key");
    ListedWhen(b.intentDigest != a.intentDigest, "intent_digest");
    ListedWhen(b.authorityId != a.authorityId, "authority_id");
  }

  lemma ReconciliationListed(e: Evidence)
    ensures Listed(ReconciliationMissing(e)) == ReconciliationText(e)
  {
    hide When, Listed;
    var w, x, y := When(!e.isFresh, "fresh"), When(!e.authoritative, "authoritative"),
        When(!e.exactIdentity, "exact_identity");
    ListedAppends(w, x);
    ListedAppends(w + x, y);
    ListedWhen(!e.isFresh, "fresh");
    ListedWhen(!e.authoritative, "authoritative");
    ListedWhen(!e.exactIdentity, "exact_identity");
  }

  lemma CompletionListed(e: Evidence)
    ensures Listed(CompletionMissing(e)) == CompletionText(e)
  {
    hide When, Listed;
    var w, x := When(!e.isFresh, "fresh"), When(!e.authoritative, "authoritative");
    var y := When(!e.postconditionVerified, "postcondition_verified");
    var z := When(!e.cardinalityValid, "cardinality_valid");
    ListedAppends(w, x);
    ListedAppends(w + x, y);
    ListedAppends(w + x + y, z);
    ListedWhen(!e.isFresh, "fresh");
    ListedWhen(!e.authoritative, "authoritative");
    ListedWhen(!e.postconditionVerified, "postcondition_verified");
    ListedWhen(!e.cardinalityValid, "cardinality_valid");
  }

  lemma Regroup(a: string, b: string, c: string, joined: string, text: string)
    requires a + b + c == text + " "
    ensures a + b + (c + joined) == text + (" " + joined)
  {
    assert a + b + (c + joined) == (a + b + c) + joined;
    assert text + (" " + joined) == (text + " ") + joined;
  }

  lemma ListedTail(names: seq<string>)
    requires |names| > 0
    ensures |Listed(names)| > 0 && Listed(names)[1..] == " " + JoinNames(names)
  {
    JoinListed(names);
    hide JoinNames, Listed;
    assert ", " + JoinNames(names) == "," + (" " + JoinNames(names));
  }

  /** The wording of the three reasons that list names. */
  lemma IdentityWorded(names: seq<string>)
    requires |names| > 0
    ensures |Listed(names)| > 0
    ensures ReasonText(IdentityChanged(names)) == "immutable identity changed:" + Listed(names)[1..]
  {
    ListedTail(names);
    hide JoinNames, Listed;
    assert "immutable" + " " + "identity changed: " == "immutable identity changed:" + " ";
    Regroup("immutable", " ", "identity changed: ", JoinNames(names), "immutable identity changed:");
  }

  lemma ReconciliationWorded(names: seq<string>)
    requires |names| > 0
    ensures |Listed(names)| > 0
    ensures ReasonText(ReconciliationLacks(names)) == "reconciliation evidence lacks" + Listed(names)[1..]
  {
    ListedTail(names);
    hide JoinNames, Listed;
    assert "reconciliation" + " " + "evidence lacks " == "reconciliation evidence lacks" + " ";
    Regroup("reconciliation", " ", "evidence lacks ", JoinNames(names), "reconciliation evidence lacks");
  }

  lemma CompletionWorded(names: seq<string>)
    requires |names| > 0
    ensures |Listed(names)| > 0
    ensures ReasonText(CompletionLacks(names)) == "completion evidence lacks" + Listed(names)[1..]
  {
    ListedTail(names);
    hide JoinNames, Listed;
    assert "completion" + " " + "evidence lacks " == "completion evidence lacks" + " ";
    Regroup("completion", " ", "evidence lacks ", JoinNames(names), "completion evidence lacks");
  }

  lemma CauseWorded(cause: Cause, required: Cause)
    ensures ReasonText(CauseMismatch(cause, required))
         == "evidence cause " + CauseName(cause) + " does not match required " + CauseName(required)
  {
    hide CauseName;
    var tail := CauseName(cause) + " does not match required " + CauseName(required);
    assert "evidence" + " " + "cause " == "evidence cause ";
    assert "evidence" + " " + ("cause " + tail) == "evidence cause " + tail;
    assert "cause " + CauseName(cause) + " does not match required " + CauseName(required) == "cause " + tail;
    assert "evidence cause " + CauseName(cause) + " does not match required " + CauseName(required)
        == "evidence cause " + tail;
  }

  lemma TerminalViolationWorded()
    ensures ReasonText(TerminalViolation) == "VIOLATION " + "is terminal"
  {
    assert "VIOLATION" + " " == "VIOLATION ";
  }

  lemma AttemptNotExpectedWorded()
    ensures ReasonText(AttemptNotExpected) == "attempt_id " + "is only valid when entering IN_FLIGHT"
  {
    assert "attempt_id" + " " == "attempt_id ";
  }

  lemma AttemptMissingWorded()
    ensures ReasonText(AttemptMissing) == "entering " + "IN_FLIGHT requires a new attempt_id"
  {
    assert "entering" + " " == "entering ";
  }

  lemma AttemptInvalidWorded()
    ensures ReasonText(AttemptInvalid) == "attempt_id " + "is invalid"
  {
    assert "attempt_id" + " " == "attempt_id ";
  }

  lemma AttemptReusedWorded()
    ensures ReasonText(AttemptReused) == "attempt_id " + "was already used"
  {
    assert "attempt_id" + " " == "attempt_id ";
  }

  lemma EdgeNotAllowedWorded()
    ensures ReasonText(EdgeNotAllowed) == "transition " + "is not allowed"
  {
    assert "transition" + " " == "transition ";
  }

  lemma SafeStopWithoutLookupWorded()
    ensures ReasonText(SafeStopWithoutLookup) == "safe " + "stop requires an attempted exact-identity lookup"
  {
    assert "safe" + " " == "safe ";
  }

  /** The cause a call towards `target` would have needed. */
  predicate Needed(c: Cause, source: State, target: State) {
    Departs(c, source) && Destination(c) == target && (target == Violation ==> source == Proposed)
  }

  /** A refusal before any edge is looked at, in its own words. */
  lemma RefusalWorded(m: Machine, target: State, e: Evidence, candidate: Identity, attemptId: Option<string>)
    requires TakeStep(m, target, e, candidate, attemptId).raised
    ensures |ChangedText(m.identity, candidate)| > 0 || candidate == m.identity
    ensures var reason := TakeStep(m, target, e, candidate, attemptId).record.violationReason;
            if m.state == Violation then reason == Some("VIOLATION " + "is terminal")
            else if candidate != m.identity then
              reason == Some("immutable identity changed:" + ChangedText(m.identity, candidate)[1..])
            else if target != InFlight && attemptId.Some? then
              reason == Some("attempt_id " + "is only valid when entering IN_FLIGHT")
            else if target == InFlight && attemptId.None? then
              reason == Some("entering " + "IN_FLIGHT requires a new attempt_id")
            else if target == InFlight && !TokenAfter("attempt-", attemptId.value) then
              reason == Some("attempt_id " + "is invalid")
            else if target == InFlight && attemptId.value in m.attemptIds then
              reason == Some("attempt_id " + "was already used")
            else true
  {
    hide TakeStep, ReasonText, ChangedFields, ChangedText, Listed, TokenAfter, PrefixedToken, NormativeCause,
         GuardFailure;
    FailureNamed(m, target, e, candidate, attemptId);
    TerminalViolationWorded();
    AttemptNotExpectedWorded();
    AttemptMissingWorded();
    AttemptInvalidWorded();
    AttemptReusedWorded();
    if candidate != m.identity {
      ChangedFieldsExact(m.identity, candidate);
      ChangedListed(m.identity, candidate);
      IdentityWorded(ChangedFields(m.identity, candidate));
    }
    if attemptId.Some? { TokenExact("attempt-", attemptId.value); }
  }

  /** A refusal at an edge, in its own words: no cause leads there, or another one does. */
  lemma EdgeRefusalWorded(m: Machine, target: State, e: Evidence, attemptId: Option<string>)
    requires m.state != Violation && AttemptGiven(m, target, attemptId)
    requires TakeStep(m, target, e, m.identity, attemptId).raised
    ensures var reason := TakeStep(m, target, e, m.identity, attemptId).record.violationReason;
            && ((forall c: Cause :: !Needed(c, m.state, target)) ==> reason == Some("transition " + "is not allowed"))
            && (forall c: Cause | Needed(c, m.state, target) && c != e.cause ::
                  reason == Some("evidence cause " + CauseName(e.cause) + " does not match required " + CauseName(c)))
    ensures Needed(e.cause, m.state, target) ==>
              && !GuardHolds(m.state, target, e)
              && TakeStep(m, target, e, m.identity, attemptId).record.violationReason
                 == OptionalReason(GuardFailure(m.state, target, e))
  {
    hide TakeStep, ReasonText, ChangedFields, TokenAfter, PrefixedToken, NormativeCause, GuardFailure, GuardHolds,
         Needed, CauseName, OptionalReason;
    FailureNamed(m, target, e, m.identity, attemptId);
    if attemptId.Some? { TokenExact("attempt-", attemptId.value); }
    EdgeNotAllowedWorded();
    forall c: Cause ensures NormativeCause(m.state, target) == Some(c) <==> Needed(c, m.state, target) {
      NeededExactly(c, m.state, target);
    }
    if NormativeCause(m.state, target).Some? {
      CauseWorded(e.cause, NormativeCause(m.state, target).value);
    }
  }

  lemma NeededExactly(c: Cause, source: State, target: State)
    ensures NormativeCause(source, target) == Some(c) <==> Needed(c, source, target)
  {
    EdgeIsCause(source, target, c);
  }

  /** A refusal for missing facts, in its own words. */
  lemma FactsRefusalWorded(m: Machine, target: State, e: Evidence, attemptId: Option<string>)
    requires m.state != Violation && AttemptGiven(m, target, attemptId) && Needed(e.cause, m.state, target)
    requires TakeStep(m, target, e, m.identity, attemptId).raised
    ensures var reason := TakeStep(m, target, e, m.identity, attemptId).record.violationReason;
            && (m.state == Reconciling && target == SafeStop ==>
                  reason == Some("safe " + "stop requires an attempted exact-identity lookup"))
            && (m.state == Reconciling && target != SafeStop ==>
                  |ReconciliationText(e)| > 0
                  && reason == Some("reconciliation evidence lacks" + ReconciliationText(e)[1..]))
            && (m.state == Verifying ==>
                  |CompletionText(e)| > 0 && reason == Some("completion evidence lacks" + CompletionText(e)[1..]))
  {
    hide TakeStep, ReasonText, TokenAfter, GuardFailure, GuardHolds, Needed, ReconciliationText, CompletionText,
         OptionalReason;
    EdgeRefusalWorded(m, target, e, attemptId);
    GuardWorded(m.state, target, e);
  }

  lemma GuardWorded(source: State, target: State, e: Evidence)
    requires Needed(e.cause, source, target) && !GuardHolds(source, target, e)
    ensures var reason := OptionalReason(GuardFailure(source, target, e));
            && (source == Reconciling && target == SafeStop ==>
                  reason == Some("safe " + "stop requires an attempted exact-identity lookup"))
            && (source == Reconciling && target != SafeStop ==>
                  |ReconciliationText(e)| > 0
                  && reason == Some("reconciliation evidence lacks" + ReconciliationText(e)[1..]))
            && (source == Verifying ==>
                  |CompletionText(e)| > 0 && reason == Some("completion evidence lacks" + CompletionText(e)[1..]))
  {
    GuardExact(source, target, e);
    hide ReasonText, Listed, ReconciliationText, CompletionText, ReconciliationMissing, CompletionMissing;
    SafeStopWithoutLookupWorded();
    ReconciliationListed(e);
    CompletionListed(e);
    if source == Reconciling && target != SafeStop {
      ReconciliationWorded(ReconciliationMissing(e));
    } else if source == Verifying {
      CompletionWorded(CompletionMissing(e));
    }
  }

  // ---------- Along whole histories ----------

  /** In a legal history the cause of every entry that is no violation fixes where it leads,
      departs from the state before it and is supported by the entry's own facts. */
  lemma EntryLeadsTo(id: Identity, log: seq<Entry>, i: nat)
    requires Legal(id, log) && i < |log| && log[i].record.resulting != Violation
    ensures log[i].record.resulting == Destination(log[i].evidence.cause)
    ensures Departs(log[i].evidence.cause, StateBefore(log, i)) && Supported(log[i].evidence)
    ensures log[i].candidate == id
  {
    hide Legal, After, Fits, TakeStep, ValidAttemptId, ValidEvidenceId, AttemptGiven;
    var m := After(id, log[..i]);
    EntryReplays(id, log, i);
    var e := log[i];
    ReturnsExactly(m, e.record.attempted, e.evidence, e.candidate, e.record.attemptId);
    if Replayed(m, e).raised {
      RaisesExactly(m, e.record.attempted, e.evidence, e.candidate, e.record.attemptId);
    } else {
      ReturnLeadsTo(m, e.record.attempted, e.evidence, e.candidate, e.record.attemptId);
    }
  }

  lemma EntryReplays(id: Identity, log: seq<Entry>, i: nat)
    requires Legal(id, log) && i < |log|
    ensures var m := After(id, log[..i]);
            m.identity == id && m.state == StateBefore(log, i) && Replayed(m, log[i]).record == log[i].record
  {
    LegalPrefix(id, log, i + 1);
    LegalPrefix(id, log, i);
    assert log[..i + 1][..i] == log[..i];
    hide TakeStep, ValidEvidenceId;
    MachineOfLegal(id, log[..i]);
  }
}
