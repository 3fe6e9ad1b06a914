/** Shared contract values: events, their links and evidence maps, and the rule that
    no string in an evidence map may look like a URL. */
module Contracts {
  import opened Wrappers
  import opened CanonicalJson
  import opened StateMachine

  datatype EventKind =
    | ActionProposed | AuthorityChecked | OperationPrepared | AttemptDispatched
    | AttemptWasDelivered | EffectCommitted | EffectRejected | ResponseReturned
    | ResponseDropped | ResponseTimedOut | ResponseErrored | ResponseMutated
    | ReadObserved | ToolSchemaObserved | VisibilityChanged | ConcurrentChangeApplied
    | FaultFired | StateTransition | ClaimRecorded | ContainmentBlocked

  /** The optional identifiers an event carries. */
  datatype Links = Links(
    actionId: Option<string>,
    attemptId: Option<string>,
    operationKey: Option<string>,
    effectId: Option<string>,
    intentDigest: Option<string>,
    authorityId: Option<string>,
    workflowId: Option<string>,
    faultId: Option<string>)

  datatype Event = Event(seqNo: int, tick: int, kind: EventKind, links: Links, evidence: map<string, Json>)

  // ---------- Evidence maps ----------

  predicate IsLetter(c: char) {
    'a' <= c <= 'z' || 'A' <= c <= 'Z'
  }

  predicate IsSchemeChar(c: char) {
    IsLetter(c) || '0' <= c <= '9' || c == '+' || c == '.' || c == '-'
  }

  /** Characters `str.lstrip` removes. */
  predicate IsStripped(c: char) {
    || '\t' <= c <= '\r' || '\U{1C}' <= c <= ' ' || c == '\U{85}' || c == '\U{A0}' || c == '\U{1680}'
    || '\U{2000}' <= c <= '\U{200A}' || c == '\U{2028}' || c == '\U{2029}' || c == '\U{202F}'
    || c == '\U{205F}' || c == '\U{3000}'
  }

  function StripLeft(s: string): string {
    if |s| > 0 && IsStripped(s[0]) then StripLeft(s[1..]) else s
  }

  predicate ColonEndsScheme(s: string) {
    |s| > 0 && (s[0] == ':' || (IsSchemeChar(s[0]) && ColonEndsScheme(s[1..])))
  }

  predicate HasScheme(s: string) {
    |s| > 0 && IsLetter(s[0]) && ColonEndsScheme(s[1..])
  }

  /** `^sha256:[0-9a-f]{64}$` */
  predicate ValidDigest(s: string) {
    |s| == 71 && "sha256:" <= s && forall i | 7 <= i < 71 :: '0' <= s[i] <= '9' || 'a' <= s[i] <= 'f'
  }

  predicate UrlLike(s: string) {
    !ValidDigest(s) && HasScheme(StripLeft(s))
  }

  /** No string inside the value looks like a URL; keys are not inspected. */
  predicate UrlFree(v: Json)
    decreases v
  {
    match v
    case Str(s) => !UrlLike(s)
    case Arr(items) => forall i | 0 <= i < |items| :: UrlFree(items[i])
    case Obj(fields) => forall k | k in fields :: UrlFree(fields[k])
    case _ => true
  }

  /** `^[a-z][a-z0-9_]*$` in at most 64 characters. */
  predicate ValidParameterName(s: string) {
    && 1 <= |s| <= 64 && IsLower(s[0])
    && forall c | c in s :: IsLower(c) || '0' <= c <= '9' || c == '_'
  }

  predicate ValidEvidenceMap(m: map<string, Json>) {
    forall k | k in m :: ValidParameterName(k) && UrlFree(m[k])
  }

  /** What constructing an event checks beyond its identifiers' grammars. */
  predicate ValidEvent(e: Event) {
    e.seqNo > 0 && e.tick >= 0 && ValidEvidenceMap(e.evidence)
  }

  predicate Managed(kind: EventKind) {
    kind == ActionProposed || kind == OperationPrepared || kind == AttemptDispatched || kind == StateTransition
  }

  // ---------- Lifecycle events ----------

  function IdentityLinks(id: Identity, attemptId: Option<string>): Links {
    Links(Some(id.actionId), attemptId, Some(id.operationKey), None, Some(id.intentDigest), Some(id.authorityId),
          None, None)
  }

  predicate MatchesIdentity(e: Event, id: Identity) {
    && e.links.actionId == Some(id.actionId) && e.links.operationKey == Some(id.operationKey)
    && e.links.intentDigest == Some(id.intentDigest) && e.links.authorityId == Some(id.authorityId)
  }

  function OptionalText(s: Option<string>): Json {
    if s.Some? then Str(s.value) else Null
  }

  /** The keys of a state-transition event's evidence. */
  datatype FactKey =
    | AttemptKey | AttemptedKey | CauseKey | EvidenceIdKey | ResultingKey | SourceKey | ReasonKey
    | FreshKey | AuthoritativeKey | ExactIdentityKey | PostconditionKey | CardinalityKey

  function KeyName(k: FactKey): string {
    match k
    case AttemptKey => "attempt_id"
    case AttemptedKey => "attempted_state"
    case CauseKey => "cause"
    case EvidenceIdKey => "evidence_id"
    case ResultingKey => "resulting_state"
    case SourceKey => "source_state"
    case ReasonKey => "violation_reason"
    case FreshKey => "fresh"
    case AuthoritativeKey => "authoritative"
    case ExactIdentityKey => "exact_identity"
    case PostconditionKey => "postcondition_verified"
    case CardinalityKey => "cardinality_valid"
  }

  function KeyOfName(name: string): FactKey {
    if name == "attempt_id" then AttemptKey
    else if name == "attempted_state" then AttemptedKey
    else if name == "cause" then CauseKey
    else if name == "evidence_id" then EvidenceIdKey
    else if name == "resulting_state" then ResultingKey
    else if name == "source_state" then SourceKey
    else if name == "violation_reason" then ReasonKey
    else if name == "fresh" then FreshKey
    else if name == "authoritative" then AuthoritativeKey
    else if name == "exact_identity" then ExactIdentityKey
    else if name == "postcondition_verified" then PostconditionKey
    else CardinalityKey
  }

  lemma KeyNamesReadBack(k: FactKey)
    ensures KeyOfName(KeyName(k)) == k
  {
  }

  function FactValue(r: Record, e: Evidence, k: FactKey): Json {
    match k
    case AttemptKey => OptionalText(r.attemptId)
    case AttemptedKey => Str(StateName(r.attempted))
    case CauseKey => Str(CauseName(r.cause))
    case EvidenceIdKey => Str(r.evidenceId)
    case ResultingKey => Str(StateName(r.resulting))
    case SourceKey => Str(StateName(r.source))
    case ReasonKey => OptionalText(r.violationReason)
    case FreshKey => Bool(e.isFresh)
    case AuthoritativeKey => Bool(e.authoritative)
    case ExactIdentityKey => Bool(e.exactIdentity)
    case PostconditionKey => Bool(e.postconditionVerified)
    case CardinalityKey => Bool(e.cardinalityValid)
  }

  function FactNames(): set<string> {
    set k: FactKey | true :: KeyName(k)
  }

  /** The evidence map of a state-transition event. */
  function TransitionFacts(r: Record, e: Evidence): map<string, Json> {
    map name | name in FactNames() :: FactValue(r, e, KeyOfName(name))
  }

  // ---------- Reading the facts back ----------

  function FactText(m: map<string, Json>, k: FactKey): Option<string> {
    if KeyName(k) in m && m[KeyName(k)].Str? then Some(m[KeyName(k)].text) else None
  }

  predicate FactFlag(m: map<string, Json>, k: FactKey) {
    KeyName(k) in m && m[KeyName(k)] == Bool(true)
  }

  function StateOfName(name: Option<string>): State {
    if name == Some("PROPOSED") then Proposed
    else if name == Some("AUTHORIZED") then Authorized
    else if name == Some("PREPARED") then Prepared
    else if name == Some("IN_FLIGHT") then InFlight
    else if name == Some("INDETERMINATE") then Indeterminate
    else if name == Some("RECONCILING") then Reconciling
    else if name == Some("RETRYABLE") then Retryable
    else if name == Some("VERIFYING") then Verifying
    else if name == Some("COMPLETE") then Complete
    else if name == Some("SAFE_STOP") then SafeStop
    else Violation
  }

  function CauseOfName(name: Option<string>): Cause {
    if name == Some("authority_confirmed") then AuthorityConfirmed
    else if name == Some("preparation_durable") then PreparationDurable
    else if name == Some("safe_stop_selected") then SafeStopSelected
    else if name == Some("attempt_delivered") then AttemptDelivered
    else if name == Some("success_receipt") then SuccessReceipt
    else if name == Some("precommit_rejection") then PrecommitRejection
    else if name == Some("ambiguous_outcome") then AmbiguousOutcome
    else if name == Some("reconciliation_started") then ReconciliationStarted
    else if name == Some("exact_effect_found") then ExactEffectFound
    else if name == Some("conclusive_absence") then ConclusiveAbsence
    else if name == Some("reconciliation_inconclusive") then ReconciliationInconclusive
    else if name == Some("redispatch_authorized") then RedispatchAuthorized
    else if name == Some("fresh_postcondition") then FreshPostcondition
    else if name == Some("verification_incomplete") then VerificationIncomplete
    else if name == Some("postcondition_failed") then PostconditionFailed
    else InvariantViolation
  }

  function RecordOfFacts(m: map<string, Json>): Record {
    Record(StateOfName(FactText(m, SourceKey)),
           StateOfName(FactText(m, AttemptedKey)),
           StateOfName(FactText(m, ResultingKey)),
           FactText(m, EvidenceIdKey).GetOr(""),
           CauseOfName(FactText(m, CauseKey)),
           FactText(m, AttemptKey),
           FactText(m, ReasonKey))
  }

  function EvidenceOfFacts(m: map<string, Json>): Evidence {
    Evidence(FactText(m, EvidenceIdKey).GetOr(""),
             CauseOfName(FactText(m, CauseKey)),
             FactFlag(m, FreshKey),
             FactFlag(m, AuthoritativeKey),
             FactFlag(m, ExactIdentityKey),
             FactFlag(m, PostconditionKey),
             FactFlag(m, CardinalityKey))
  }

  lemma StateNamesReadBack(s: State)
    ensures StateOfName(Some(StateName(s))) == s
  {
  }

  /** Causes that report what became of an attempt. */
  predicate OutcomeCause(c: Cause) {
    || c == SuccessReceipt || c == PrecommitRejection || c == AmbiguousOutcome || c == ReconciliationStarted
    || c == ExactEffectFound
  }

  /** Causes that settle an operation. */
  predicate SettlingCause(c: Cause) {
    || c == ConclusiveAbsence || c == ReconciliationInconclusive || c == FreshPostcondition
    || c == VerificationIncomplete || c == PostconditionFailed
  }

  lemma OutcomeNamesReadBack(c: Cause)
    requires OutcomeCause(c)
    ensures CauseOfName(Some(CauseName(c))) == c
  {
  }

  lemma SettlingNamesReadBack(c: Cause)
    requires SettlingCause(c)
    ensures CauseOfName(Some(CauseName(c))) == c
  {
  }

  lemma OtherNamesReadBack(c: Cause)
    requires !OutcomeCause(c) && !SettlingCause(c)
    ensures CauseOfName(Some(CauseName(c))) == c
  {
  }

  lemma CauseNamesReadBack(c: Cause)
    ensures CauseOfName(Some(CauseName(c))) == c
  {
    hide CauseName, CauseOfName;
    if OutcomeCause(c) {
      OutcomeNamesReadBack(c);
    } else if SettlingCause(c) {
      SettlingNamesReadBack(c);
    } else {
      OtherNamesReadBack(c);
    }
  }

  /** The facts hold one entry per key, and nothing else. */
  lemma FactEntries(r: Record, e: Evidence)
    ensures forall k: FactKey ::
              KeyName(k) in TransitionFacts(r, e) && TransitionFacts(r, e)[KeyName(k)] == FactValue(r, e, k)
    ensures forall name | name in TransitionFacts(r, e) :: exists k: FactKey :: name == KeyName(k)
  {
    hide KeyName, KeyOfName, FactValue;
    forall k: FactKey ensures KeyOfName(KeyName(k)) == k && KeyName(k) in FactNames() {
      KeyNamesReadBack(k);
    }
  }

  /** The event's facts determine the record and every evidence flag. */
  lemma FactsReadBack(r: Record, e: Evidence)
    requires r.evidenceId == e.evidenceId && r.cause == e.cause
    ensures RecordOfFacts(TransitionFacts(r, e)) == r
    ensures EvidenceOfFacts(TransitionFacts(r, e)) == e
  {
    hide StateName, CauseName, StateOfName, CauseOfName, TransitionFacts, FactText, FactFlag;
    TextsReadBack(r, e);
    FlagsReadBack(r, e);
    StateNamesReadBack(r.source);
    StateNamesReadBack(r.attempted);
    StateNamesReadBack(r.resulting);
    CauseNamesReadBack(r.cause);
  }

  lemma TextsReadBack(r: Record, e: Evidence)
    ensures var m := TransitionFacts(r, e);
            && FactText(m, SourceKey) == Some(StateName(r.source))
            && FactText(m, AttemptedKey) == Some(StateName(r.attempted))
            && FactText(m, ResultingKey) == Some(StateName(r.resulting))
            && FactText(m, EvidenceIdKey) == Some(r.evidenceId) && FactText(m, CauseKey) == Some(CauseName(r.cause))
            && FactText(m, AttemptKey) == r.attemptId && FactText(m, ReasonKey) == r.violationReason
  {
    hide StateName, CauseName, KeyName, KeyOfName, TransitionFacts;
    FactEntries(r, e);
  }

  lemma FlagsReadBack(r: Record, e: Evidence)
    ensures var m := TransitionFacts(r, e);
            && FactFlag(m, FreshKey) == e.isFresh && FactFlag(m, AuthoritativeKey) == e.authoritative
            && FactFlag(m, ExactIdentityKey) == e.exactIdentity
            && FactFlag(m, PostconditionKey) == e.postconditionVerified
            && FactFlag(m, CardinalityKey) == e.cardinalityValid
  {
    hide StateName, CauseName, KeyName, KeyOfName, TransitionFacts;
    FactEntries(r, e);
  }

  // ---------- Transition facts always pass event validation ----------

  predicate NoColon(s: string) {
    ':' !in s
  }

  lemma {:induction false} SchemeNeedsColon(s: string)
    requires NoColon(s)
    ensures !ColonEndsScheme(s)
  {
    if |s| > 0 {
      SchemeNeedsColon(s[1..]);
    }
  }

  lemma {:induction false} StripKeepsNoColon(s: string)
    requires NoColon(s)
    ensures NoColon(StripLeft(s))
  {
    if |s| > 0 && IsStripped(s[0]) {
      StripKeepsNoColon(s[1..]);
    }
  }

  lemma NoColonNotUrl(s: string)
    requires NoColon(s)
    ensures !UrlLike(s)
  {
    StripKeepsNoColon(s);
    var t := StripLeft(s);
    if |t| > 0 {
      SchemeNeedsColon(t[1..]);
    }
  }

  lemma {:induction false} SpaceBlocksScheme(s: string, k: nat)
    requires k < |s| && s[k] == ' ' && NoColon(s[..k])
    ensures !ColonEndsScheme(s)
  {
    if k > 0 {
      assert s[..k][0] == s[0];
      assert s[1..][..k - 1] == s[..k][1..];
      SpaceBlocksScheme(s[1..], k - 1);
    }
  }

  /** A text whose first word is followed by a space has no URL scheme, wherever
      its first colon may be. */
  lemma WordThenSpaceNotUrl(word: string, s: string)
    requires |word| > 0 && IsLetter(word[0]) && NoColon(word)
    requires |s| > |word| && word <= s && s[|word|] == ' '
    ensures !UrlLike(s)
  {
    assert s[0] == word[0];
    assert StripLeft(s) == s;
    assert s[1..][..|word| - 1] == word[1..];
    SpaceBlocksScheme(s[1..], |word| - 1);
  }

  lemma SubjectsPlain(r: Reason)
    ensures |ReasonSubject(r)| > 0 && IsLetter(ReasonSubject(r)[0]) && NoColon(ReasonSubject(r))
  {
  }

  /** No recorded violation reason is mistaken for a URL, although one has a colon. */
  lemma ReasonNotUrl(r: Reason)
    ensures !UrlLike(ReasonText(r))
  {
    hide ReasonSubject, ReasonRemainder;
    SubjectsPlain(r);
    WordThenSpaceNotUrl(ReasonSubject(r), ReasonText(r));
  }

  lemma StateNamesPlain(s: State)
    ensures NoColon(StateName(s))
  {
  }

  lemma OutcomeNamesPlain(c: Cause)
    requires OutcomeCause(c)
    ensures NoColon(CauseName(c))
  {
  }

  lemma SettlingNamesPlain(c: Cause)
    requires SettlingCause(c)
    ensures NoColon(CauseName(c))
  {
  }

  lemma OtherNamesPlain(c: Cause)
    requires !OutcomeCause(c) && !SettlingCause(c)
    ensures NoColon(CauseName(c))
  {
  }

  lemma NamesNotUrls(s: State, c: Cause)
    ensures !UrlLike(StateName(s)) && !UrlLike(CauseName(c))
  {
    hide StateName, CauseName;
    StateNamesPlain(s);
    if OutcomeCause(c) {
      OutcomeNamesPlain(c);
    } else if SettlingCause(c) {
      SettlingNamesPlain(c);
    } else {
      OtherNamesPlain(c);
    }
    NoColonNotUrl(StateName(s));
    NoColonNotUrl(CauseName(c));
  }

  lemma TokensNotUrls(evidenceId: string, attemptId: string)
    ensures ValidEvidenceId(evidenceId) ==> !UrlLike(evidenceId)
    ensures ValidAttemptId(attemptId) ==> !UrlLike(attemptId)
  {
    if ValidEvidenceId(evidenceId) {
      NoColonNotUrl(evidenceId);
    }
    if ValidAttemptId(attemptId) {
      assert attemptId == "attempt-" + attemptId[8..];
      NoColonNotUrl(attemptId);
    }
  }

  lemma KeyNamesValid(k: FactKey)
    ensures ValidParameterName(KeyName(k))
  {
  }

  /** Every record the machine can make yields facts that event construction accepts. */
  lemma FactsValid(m: Machine, target: State, e: Evidence, candidate: Identity, attemptId: Option<string>)
    requires ValidEvidenceId(e.evidenceId)
    requires attemptId.Some? ==> ValidAttemptId(attemptId.value)
    ensures ValidEvidenceMap(TransitionFacts(TakeStep(m, target, e, candidate, attemptId).record, e))
  {
    var r := TakeStep(m, target, e, candidate, attemptId).record;
    var facts := TransitionFacts(r, e);
    hide TransitionFacts, TakeStep, StateName, CauseName, KeyName, UrlLike, ValidParameterName, ValidAttemptId,
         ValidEvidenceId;
    RecordTexts(m, target, e, candidate, attemptId);
    FactEntries(r, e);
    forall name | name in facts ensures ValidParameterName(name) && UrlFree(facts[name]) {
      var k: FactKey :| name == KeyName(k);
      KeyNamesValid(k);
    }
  }

  lemma RecordTexts(m: Machine, target: State, e: Evidence, candidate: Identity, attemptId: Option<string>)
    requires ValidEvidenceId(e.evidenceId)
    requires attemptId.Some? ==> ValidAttemptId(attemptId.value)
    ensures var r := TakeStep(m, target, e, candidate, attemptId).record;
            && UrlFree(OptionalText(r.attemptId)) && UrlFree(OptionalText(r.violationReason))
            && !UrlLike(r.evidenceId) && !UrlLike(CauseName(r.cause))
            && !UrlLike(StateName(r.source)) && !UrlLike(StateName(r.attempted)) && !UrlLike(StateName(r.resulting))
  {
    hide ReasonText, ChangedFields, ValidAttemptId, ValidEvidenceId, GuardFailure, UrlLike, StateName, CauseName;
    var r := TakeStep(m, target, e, candidate, attemptId).record;
    RecordKeepsInputs(m, target, e, candidate, attemptId);
    NamesNotUrls(r.source, r.cause);
    NamesNotUrls(r.attempted, r.cause);
    NamesNotUrls(r.resulting, r.cause);
    TokensNotUrls(r.evidenceId, attemptId.GetOr(""));
    forall reason ensures !UrlLike(ReasonText(reason)) {
      ReasonNotUrl(reason);
    }
  }
}
