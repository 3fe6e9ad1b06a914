/** The authority check: one question about one semantic action, the first defect by a
    fixed precedence, and a decision whose evidence map alone justifies it. */
module Authority {
  import opened Wrappers
  import opened CanonicalJson
  import opened StateMachine
  import opened Contracts

  datatype CheckKind = AuthorizeCheck | PassivePreDispatch | PreDispatchWrite | Redispatch | ReadOnlyCheck

  datatype Disposition = Allow | Stop | Refuse

  datatype AuthorityReason =
    | IdentityMismatch | AuthorityIdMismatch | SubjectMismatch | ServiceMismatch | OperationMismatch
    | IntentDigestMismatch | ParametersMismatch | CompensationNotAuthorized | CardinalityExceeded | AuthExpired
    | NewlyAuthorized | Revalidated | ReadOnlyAllowed

  const REASON_PRECEDENCE: seq<AuthorityReason> :=
    [IdentityMismatch, AuthorityIdMismatch, SubjectMismatch, ServiceMismatch, OperationMismatch,
     IntentDigestMismatch, ParametersMismatch, CompensationNotAuthorized, CardinalityExceeded, AuthExpired]

  datatype Intent = Intent(service: string, operation: string, parameters: map<string, Json>)

  datatype Grant = Grant(
    authorityId: string,
    subjectId: string,
    service: string,
    operation: string,
    intentDigest: string,
    allowedParameters: map<string, Json>,
    expiresAtTick: nat,
    maxEffects: nat,
    allowedCompensation: Option<string>)

  datatype Check = Check(
    kind: CheckKind,
    candidate: Identity,
    confirmed: Identity,
    subjectId: string,
    intent: Intent,
    currentTick: nat,
    committedEffectCount: nat,
    isCompensation: bool,
    originalGrant: Option<Grant>)

  datatype Decision = Decision(
    disposition: Disposition,
    reason: AuthorityReason,
    evidence: map<EvidenceKey, Json>,
    target: Option<State>,
    cause: Option<Cause>)

  function KindName(k: CheckKind): string {
    match k
    case AuthorizeCheck => "authorize"
    case PassivePreDispatch => "passive_pre_dispatch"
    case PreDispatchWrite => "pre_dispatch_write"
    case Redispatch => "redispatch"
    case ReadOnlyCheck => "read_only"
  }

  function DispositionName(d: Disposition): string {
    match d
    case Allow => "ALLOW"
    case Stop => "SAFE_STOP"
    case Refuse => "VIOLATION"
  }

  function ReasonName(r: AuthorityReason): string {
    match r
    case IdentityMismatch => "IDENTITY_MISMATCH"
    case AuthorityIdMismatch => "AUTHORITY_ID_MISMATCH"
    case SubjectMismatch => "SUBJECT_MISMATCH"
    case ServiceMismatch => "SERVICE_MISMATCH"
    case OperationMismatch => "OPERATION_MISMATCH"
    case IntentDigestMismatch => "INTENT_DIGEST_MISMATCH"
    case ParametersMismatch => "PARAMETERS_MISMATCH"
    case CompensationNotAuthorized => "COMPENSATION_NOT_AUTHORIZED"
    case CardinalityExceeded => "CARDINALITY_EXCEEDED"
    case AuthExpired => "AUTH_EXPIRED"
    case NewlyAuthorized => "AUTHORIZED"
    case Revalidated => "REVALIDATED"
    case ReadOnlyAllowed => "READ_ONLY_ALLOWED"
  }

  // ---------- Contract validity ----------

  predicate ValidIdentity(id: Identity) {
    && PrefixedToken("action-", id.actionId) && PrefixedToken("op-", id.operationKey)
    && ValidDigest(id.intentDigest) && PrefixedToken("auth-", id.authorityId)
  }

  predicate ValidIntent(i: Intent) {
    ValidParameterName(i.service) && ValidParameterName(i.operation) && ValidEvidenceMap(i.parameters)
  }

  predicate ValidGrant(g: Grant) {
    && PrefixedToken("auth-", g.authorityId) && PrefixedToken("", g.subjectId)
    && ValidParameterName(g.service) && ValidParameterName(g.operation)
    && ValidDigest(g.intentDigest) && ValidEvidenceMap(g.allowedParameters) && g.maxEffects > 0
    && (g.allowedCompensation.Some? ==> PrefixedToken("action-", g.allowedCompensation.value))
  }

  /** An original grant needs a compensation claim, which a read-only check cannot make. */
  predicate ValidCheck(r: Check) {
    && ValidIdentity(r.candidate) && ValidIdentity(r.confirmed) && PrefixedToken("", r.subjectId)
    && ValidIntent(r.intent)
    && (r.originalGrant.Some? ==> r.isCompensation && ValidGrant(r.originalGrant.value))
    && (r.kind == ReadOnlyCheck ==> !r.isCompensation)
  }

  // ---------- Findings ----------

  function IntentValue(i: Intent): Json {
    Obj(map["service" := Str(i.service), "operation" := Str(i.operation), "parameters" := Obj(i.parameters)])
  }

  /** What is compared, before any verdict. */
  datatype Findings = Findings(
    kind: CheckKind,
    identityConfirmed: bool,
    authorityIdMatch: bool,
    subjectMatch: bool,
    serviceMatch: bool,
    operationMatch: bool,
    intentDigestMatch: bool,
    parametersMatch: bool,
    compensationClaimed: bool,
    compensationAuthorized: Option<bool>,
    cardinalityValid: bool,
    tickValid: bool)

  function Compare(g: Grant, r: Check, recomputed: string): Findings {
    Findings(
      r.kind,
      && r.candidate.actionId == r.confirmed.actionId && r.candidate.operationKey == r.confirmed.operationKey
      && r.candidate.intentDigest == r.confirmed.intentDigest && r.candidate.authorityId == r.confirmed.authorityId,
      r.candidate.authorityId == g.authorityId,
      r.subjectId == g.subjectId,
      r.intent.service == g.service,
      r.intent.operation == g.operation,
      recomputed == r.candidate.intentDigest && recomputed == g.intentDigest,
      Print(Obj(r.intent.parameters)) == Print(Obj(g.allowedParameters)),
      r.isCompensation,
      if r.isCompensation then
        Some(&& r.originalGrant.Some?
             && r.originalGrant.value.allowedCompensation == Some(r.candidate.actionId)
             && r.originalGrant.value.authorityId != g.authorityId)
      else None,
      r.committedEffectCount < g.maxEffects,
      r.currentTick <= g.expiresAtTick)
  }

  predicate Defect(f: Findings, reason: AuthorityReason) {
    match reason
    case IdentityMismatch => !f.identityConfirmed
    case AuthorityIdMismatch => !f.authorityIdMatch
    case SubjectMismatch => !f.subjectMatch
    case ServiceMismatch => !f.serviceMatch
    case OperationMismatch => !f.operationMatch
    case IntentDigestMismatch => !f.intentDigestMatch
    case ParametersMismatch => !f.parametersMatch
    case CompensationNotAuthorized => f.compensationClaimed && f.compensationAuthorized != Some(true)
    case CardinalityExceeded => f.kind != ReadOnlyCheck && !f.cardinalityValid
    case AuthExpired => f.kind != ReadOnlyCheck && !f.tickValid
    case _ => false
  }

  function FirstDefect(f: Findings, reasons: seq<AuthorityReason>): Option<AuthorityReason> {
    if |reasons| == 0 then None
    else if Defect(f, reasons[0]) then Some(reasons[0])
    else FirstDefect(f, reasons[1..])
  }

  datatype Verdict = Verdict(disposition: Disposition, reason: AuthorityReason, target: Option<State>,
                             cause: Option<Cause>)

  function Decide(f: Findings): Verdict {
    match FirstDefect(f, REASON_PRECEDENCE)
    case None =>
      if f.kind == AuthorizeCheck then Verdict(Allow, NewlyAuthorized, Some(Authorized), Some(AuthorityConfirmed))
      else if f.kind == ReadOnlyCheck then Verdict(Allow, ReadOnlyAllowed, None, None)
      else Verdict(Allow, Revalidated, None, None)
    case Some(reason) =>
      if reason == AuthExpired && f.kind == PassivePreDispatch then
        Verdict(Stop, AuthExpired, Some(SafeStop), Some(SafeStopSelected))
      else Verdict(Refuse, reason, Some(Violation), Some(InvariantViolation))
  }

  // ---------- Evidence ----------

  /** The 25 names of the evidence contract, in their alphabetical order. */
  datatype EvidenceKey =
    | ActionKey | AuthorityKey | AuthorityMatchKey | CandidateDigestKey | CardinalityValidKey | KindKey | TickKey
    | CommittedKey | CompensationAuthorizedKey | CompensationClaimedKey | DispositionKey | ExpiryKey
    | GrantAuthorityKey | GrantDigestKey | IdentityKey | DigestMatchKey | MaxEffectsKey | OperationKeyKey
    | OperationMatchKey | ParametersMatchKey | AuthorityReasonKey | RecomputedDigestKey | ServiceMatchKey
    | SubjectMatchKey | TickValidKey

  function EvidenceValue(g: Grant, r: Check, recomputed: string, f: Findings, v: Verdict, k: EvidenceKey): Json {
    match k
    case ActionKey => Str(r.candidate.actionId)
    case AuthorityKey => Str(r.candidate.authorityId)
    case AuthorityMatchKey => Bool(f.authorityIdMatch)
    case CandidateDigestKey => Str(r.candidate.intentDigest)
    case CardinalityValidKey => Bool(f.cardinalityValid)
    case KindKey => Str(KindName(r.kind))
    case TickKey => Int(r.currentTick)
    case CommittedKey => Int(r.committedEffectCount)
    case CompensationAuthorizedKey =>
      if f.compensationAuthorized.Some? then Bool(f.compensationAuthorized.value) else Null
    case CompensationClaimedKey => Bool(f.compensationClaimed)
    case DispositionKey => Str(DispositionName(v.disposition))
    case ExpiryKey => Int(g.expiresAtTick)
    case GrantAuthorityKey => Str(g.authorityId)
    case GrantDigestKey => Str(g.intentDigest)
    case IdentityKey => Bool(f.identityConfirmed)
    case DigestMatchKey => Bool(f.intentDigestMatch)
    case MaxEffectsKey => Int(g.maxEffects)
    case OperationKeyKey => Str(r.candidate.operationKey)
    case OperationMatchKey => Bool(f.operationMatch)
    case ParametersMatchKey => Bool(f.parametersMatch)
    case AuthorityReasonKey => Str(ReasonName(v.reason))
    case RecomputedDigestKey => Str(recomputed)
    case ServiceMatchKey => Bool(f.serviceMatch)
    case SubjectMatchKey => Bool(f.subjectMatch)
    case TickValidKey => Bool(f.tickValid)
  }

  function AllKeys(): set<EvidenceKey> {
    {ActionKey, AuthorityKey, AuthorityMatchKey, CandidateDigestKey, CardinalityValidKey, KindKey, TickKey,
     CommittedKey, CompensationAuthorizedKey, CompensationClaimedKey, DispositionKey, ExpiryKey,
     GrantAuthorityKey, GrantDigestKey, IdentityKey, DigestMatchKey, MaxEffectsKey, OperationKeyKey,
     OperationMatchKey, ParametersMatchKey, AuthorityReasonKey, RecomputedDigestKey, ServiceMatchKey,
     SubjectMatchKey, TickValidKey}
  }

  function EvidenceOf(g: Grant, r: Check, recomputed: string, f: Findings, v: Verdict): map<EvidenceKey, Json> {
    map k | k in AllKeys() :: EvidenceValue(g, r, recomputed, f, v, k)
  }

  /** One check. `digest` stands for SHA-256 over canonical text, printed as a digest. */
  function CheckAuthority(digest: string -> string, g: Grant, r: Check): Option<Decision> {
    if !ValidGrant(g) || !ValidCheck(r) then None
    else
      var recomputed := digest(Print(IntentValue(r.intent)));
      var f := Compare(g, r, recomputed);
      var v := Decide(f);
      Some(Decision(v.disposition, v.reason, EvidenceOf(g, r, recomputed, f, v), v.target, v.cause))
  }

  // ---------- What constructing a decision checks ----------

  predicate MatrixRow(d: Decision) {
    match d.disposition
    case Allow =>
      if d.reason == NewlyAuthorized then d.target == Some(Authorized) && d.cause == Some(AuthorityConfirmed)
      else (d.reason == Revalidated || d.reason == ReadOnlyAllowed) && d.target.None? && d.cause.None?
    case Stop => d.reason == AuthExpired && d.target == Some(SafeStop) && d.cause == Some(SafeStopSelected)
    case Refuse => d.reason in REASON_PRECEDENCE && d.target == Some(Violation) && d.cause == Some(InvariantViolation)
  }

  predicate Vocabulary(k: EvidenceKey, s: string) {
    match k
    case KindKey => exists kind: CheckKind :: s == KindName(kind)
    case DispositionKey => exists disposition: Disposition :: s == DispositionName(disposition)
    case AuthorityReasonKey => exists reason: AuthorityReason :: s == ReasonName(reason)
    case _ => false
  }

  /** Every key has its exact type and vocabulary. */
  predicate ValidField(k: EvidenceKey, v: Json) {
    match k
    case ActionKey => v.Str? && PrefixedToken("action-", v.text)
    case OperationKeyKey => v.Str? && PrefixedToken("op-", v.text)
    case AuthorityKey => v.Str? && PrefixedToken("auth-", v.text)
    case GrantAuthorityKey => v.Str? && PrefixedToken("auth-", v.text)
    case CandidateDigestKey => v.Str? && ValidDigest(v.text)
    case GrantDigestKey => v.Str? && ValidDigest(v.text)
    case RecomputedDigestKey => v.Str? && ValidDigest(v.text)
    case KindKey => v.Str? && Vocabulary(k, v.text)
    case DispositionKey => v.Str? && Vocabulary(k, v.text)
    case AuthorityReasonKey => v.Str? && Vocabulary(k, v.text)
    case TickKey => v.Int? && v.number >= 0
    case CommittedKey => v.Int? && v.number >= 0
    case ExpiryKey => v.Int? && v.number >= 0
    case MaxEffectsKey => v.Int? && v.number > 0
    case CompensationAuthorizedKey => v.Null? || v.Bool?
    case _ => v.Bool?
  }

  predicate EvidenceAccepted(d: Decision) {
    && d.evidence.Keys == AllKeys()
    && (forall k | k in d.evidence :: ValidField(k, d.evidence[k]) && UrlFree(d.evidence[k]))
    && d.evidence[DispositionKey] == Str(DispositionName(d.disposition))
    && d.evidence[AuthorityReasonKey] == Str(ReasonName(d.reason))
  }

  predicate DecisionAccepted(d: Decision) {
    MatrixRow(d) && EvidenceAccepted(d)
  }

  // ---------- The winning reason ----------

  lemma {:induction false} FirstDefectExact(f: Findings, reasons: seq<AuthorityReason>)
    ensures FirstDefect(f, reasons).None? <==> forall reason | reason in reasons :: !Defect(f, reason)
    ensures FirstDefect(f, reasons).Some? ==>
              exists i :: 0 <= i < |reasons| && FirstDefect(f, reasons) == Some(reasons[i]) && Defect(f, reasons[i])
                          && forall j | 0 <= j < i :: !Defect(f, reasons[j])
  {
    hide Defect;
    if |reasons| > 0 {
      FirstDefectExact(f, reasons[1..]);
      assert forall reason :: reason in reasons <==> reason == reasons[0] || reason in reasons[1..];
      if Defect(f, reasons[0]) {
        assert FirstDefect(f, reasons) == Some(reasons[0]);
      } else if FirstDefect(f, reasons).Some? {
        var i :| 0 <= i < |reasons[1..]| && FirstDefect(f, reasons[1..]) == Some(reasons[1..][i])
          && Defect(f, reasons[1..][i])
                 && forall j | 0 <= j < i :: !Defect(f, reasons[1..][j]);
        assert forall j | 0 <= j < i + 1 :: !Defect(f, reasons[j]) by {
          forall j | 0 <= j < i + 1 ensures !Defect(f, reasons[j]) {
            if j > 0 { assert reasons[j] == reasons[1..][j - 1]; }
          }
        }
        assert reasons[i + 1] == reasons[1..][i];
      }
    }
  }

  /** Expiry is listed last, and every defect is listed. */
  lemma PrecedenceShape(f: Findings, reason: AuthorityReason)
    ensures Defect(f, reason) ==> reason in REASON_PRECEDENCE
    ensures |REASON_PRECEDENCE| == 10
    ensures reason in REASON_PRECEDENCE[..9] <==> reason in REASON_PRECEDENCE && reason != AuthExpired
    ensures REASON_PRECEDENCE[9] == AuthExpired
  {
    assert REASON_PRECEDENCE[..9] ==
      [IdentityMismatch, AuthorityIdMismatch, SubjectMismatch, ServiceMismatch, OperationMismatch,
       IntentDigestMismatch, ParametersMismatch, CompensationNotAuthorized, CardinalityExceeded];
  }

  /** The verdict allows exactly when there is no defect, stops exactly when expiry is the
      only defect of a passive check, and otherwise refuses with a defect that no defect
      of higher precedence accompanies. */
  lemma VerdictExact(f: Findings)
    ensures Decide(f).disposition == Allow <==> forall reason: AuthorityReason :: !Defect(f, reason)
    ensures Decide(f).disposition == Stop <==>
              && f.kind == PassivePreDispatch && Defect(f, AuthExpired)
              && forall reason: AuthorityReason | reason != AuthExpired :: !Defect(f, reason)
    ensures Decide(f).disposition != Allow ==>
              exists i :: 0 <= i < |REASON_PRECEDENCE| && Decide(f).reason == REASON_PRECEDENCE[i]
                          && Defect(f, REASON_PRECEDENCE[i])
                          && forall j | 0 <= j < i :: !Defect(f, REASON_PRECEDENCE[j])
  {
    FirstDefectExact(f, REASON_PRECEDENCE);
    forall reason: AuthorityReason { PrecedenceShape(f, reason); }
    hide FirstDefect, Defect, REASON_PRECEDENCE;
    if FirstDefect(f, REASON_PRECEDENCE) == Some(AuthExpired) {
      var i :| 0 <= i < |REASON_PRECEDENCE| && REASON_PRECEDENCE[i] == AuthExpired
               && forall j | 0 <= j < i :: !Defect(f, REASON_PRECEDENCE[j]);
      assert i == 9 by { OnlyLastIsExpiry(i); }
      forall reason | reason in REASON_PRECEDENCE[..9] ensures !Defect(f, reason) {
        var j :| 0 <= j < 9 && REASON_PRECEDENCE[..9][j] == reason;
        assert REASON_PRECEDENCE[j] == reason;
      }
    }
  }

  lemma OnlyLastIsExpiry(i: nat)
    requires i < |REASON_PRECEDENCE| && REASON_PRECEDENCE[i] == AuthExpired
    ensures i == 9
  {
  }

  // ---------- Decisions are accepted ----------

  lemma PlainTokenNotUrl(prefix: string, s: string)
    requires PrefixedToken(prefix, s) && NoColon(prefix)
    ensures !UrlLike(s)
  {
    assert s == prefix + s[|prefix|..];
    NoColonNotUrl(s);
  }

  lemma KindNamesPlain(kind: CheckKind)
    ensures NoColon(KindName(kind))
  {
  }

  lemma DispositionNamesPlain(d: Disposition)
    ensures NoColon(DispositionName(d))
  {
  }

  predicate MismatchReason(r: AuthorityReason) {
    || r == IdentityMismatch || r == AuthorityIdMismatch || r == SubjectMismatch || r == ServiceMismatch
    || r == OperationMismatch || r == IntentDigestMismatch || r == ParametersMismatch
  }

  lemma MismatchNamesPlain(r: AuthorityReason)
    requires MismatchReason(r)
    ensures NoColon(ReasonName(r))
  {
  }

  lemma OtherNamesPlain(r: AuthorityReason)
    requires !MismatchReason(r)
    ensures NoColon(ReasonName(r))
  {
  }

  lemma ReasonNamesPlain(r: AuthorityReason)
    ensures NoColon(ReasonName(r))
  {
    hide ReasonName, NoColon;
    if MismatchReason(r) {
      MismatchNamesPlain(r);
    } else {
      OtherNamesPlain(r);
    }
  }

  /** A field of the right type and vocabulary is never taken for a URL. */
  lemma FieldsUrlFree(k: EvidenceKey, v: Json)
    requires ValidField(k, v)
    ensures UrlFree(v)
  {
    hide UrlLike, PrefixedToken, KindName, DispositionName, ReasonName, ValidDigest;
    if v.Str? {
      if ValidDigest(v.text) {
        DigestNotUrl(v.text);
      } else if Vocabulary(k, v.text) {
        VocabularyPlain(k, v.text);
      } else {
        TokenFieldNotUrl(k, v.text);
      }
    }
  }

  lemma DigestNotUrl(s: string)
    requires ValidDigest(s)
    ensures !UrlLike(s)
  {
  }

  lemma VocabularyPlain(k: EvidenceKey, s: string)
    requires Vocabulary(k, s)
    ensures !UrlLike(s)
  {
    hide KindName, DispositionName, ReasonName, UrlLike;
    forall kind: CheckKind ensures NoColon(KindName(kind)) { KindNamesPlain(kind); }
    forall d: Disposition ensures NoColon(DispositionName(d)) { DispositionNamesPlain(d); }
    forall r: AuthorityReason ensures NoColon(ReasonName(r)) { ReasonNamesPlain(r); }
    NoColonNotUrl(s);
  }

  lemma TokenFieldNotUrl(k: EvidenceKey, s: string)
    requires ValidField(k, Str(s)) && !ValidDigest(s) && !Vocabulary(k, s)
    ensures !UrlLike(s)
  {
    hide UrlLike, PrefixedToken, ValidDigest, Vocabulary;
    match k {
      case ActionKey => PlainTokenNotUrl("action-", s);
      case OperationKeyKey => PlainTokenNotUrl("op-", s);
      case AuthorityKey => PlainTokenNotUrl("auth-", s);
      case GrantAuthorityKey => PlainTokenNotUrl("auth-", s);
      case _ =>
    }
  }

  lemma EvidenceFieldsValid(g: Grant, r: Check, recomputed: string, f: Findings, v: Verdict, k: EvidenceKey)
    requires ValidGrant(g) && ValidCheck(r) && ValidDigest(recomputed)
    ensures ValidField(k, EvidenceValue(g, r, recomputed, f, v, k))
  {
    hide PrefixedToken, ValidDigest, ValidEvidenceMap, ValidParameterName, KindName, DispositionName, ReasonName;
  }

  lemma VerdictRow(f: Findings)
    ensures var v := Decide(f);
            forall m :: MatrixRow(Decision(v.disposition, v.reason, m, v.target, v.cause))
  {
    VerdictExact(f);
    hide FirstDefect, Defect;
  }

  lemma EvidenceMapAccepted(g: Grant, r: Check, recomputed: string, f: Findings, v: Verdict)
    requires ValidGrant(g) && ValidCheck(r) && ValidDigest(recomputed)
    ensures EvidenceAccepted(Decision(v.disposition, v.reason, EvidenceOf(g, r, recomputed, f, v), v.target, v.cause))
  {
    hide ValidGrant, ValidCheck, ValidDigest, ValidField, EvidenceValue, UrlFree, AllKeys;
    forall k: EvidenceKey
      ensures ValidField(k, EvidenceValue(g, r, recomputed, f, v, k))
      ensures UrlFree(EvidenceValue(g, r, recomputed, f, v, k))
    {
      EvidenceFieldsValid(g, r, recomputed, f, v, k);
      FieldsUrlFree(k, EvidenceValue(g, r, recomputed, f, v, k));
    }
    NamedFields(g, r, recomputed, f, v);
    KeyListed(DispositionKey);
    KeyListed(AuthorityReasonKey);
  }

  lemma KeyListed(k: EvidenceKey)
    ensures k in AllKeys()
  {
  }

  /** Every decision the check makes passes the decision's own construction checks. */
  lemma DecisionsAccepted(digest: string -> string, g: Grant, r: Check)
    requires forall text :: ValidDigest(digest(text))
    ensures CheckAuthority(digest, g, r).Some? <==> ValidGrant(g) && ValidCheck(r)
    ensures CheckAuthority(digest, g, r).Some? ==> DecisionAccepted(CheckAuthority(digest, g, r).value)
  {
    if ValidGrant(g) && ValidCheck(r) {
      hide ValidGrant, ValidCheck, Compare, ValidDigest, Decide, Print, IntentValue, EvidenceAccepted, EvidenceOf,
           MatrixRow;
      var recomputed := digest(Print(IntentValue(r.intent)));
      var f := Compare(g, r, recomputed);
      VerdictRow(f);
      EvidenceMapAccepted(g, r, recomputed, f, Decide(f));
    }
  }

  lemma NamedFields(g: Grant, r: Check, recomputed: string, f: Findings, v: Verdict)
    ensures EvidenceValue(g, r, recomputed, f, v, DispositionKey) == Str(DispositionName(v.disposition))
    ensures EvidenceValue(g, r, recomputed, f, v, AuthorityReasonKey) == Str(ReasonName(v.reason))
  {
  }

  // ---------- Recomputing a decision from its evidence ----------

  function KindOfName(name: Json): CheckKind {
    if name == Str("authorize") then AuthorizeCheck
    else if name == Str("passive_pre_dispatch") then PassivePreDispatch
    else if name == Str("pre_dispatch_write") then PreDispatchWrite
    else if name == Str("redispatch") then Redispatch
    else ReadOnlyCheck
  }

  function Value(m: map<EvidenceKey, Json>, k: EvidenceKey): Json {
    if k in m then m[k] else Null
  }

  function Number(m: map<EvidenceKey, Json>, k: EvidenceKey): int {
    if Value(m, k).Int? then Value(m, k).number else 0
  }

  /** The findings an evidence map supports. Ticks, counts, authority ids and digests are
      compared again; `disposition` and `reason` are not looked at. */
  function FindingsOf(m: map<EvidenceKey, Json>): Findings {
    Findings(
      KindOfName(Value(m, KindKey)),
      Value(m, IdentityKey) == Bool(true),
      Value(m, AuthorityKey) == Value(m, GrantAuthorityKey),
      Value(m, SubjectMatchKey) == Bool(true),
      Value(m, ServiceMatchKey) == Bool(true),
      Value(m, OperationMatchKey) == Bool(true),
      Value(m, RecomputedDigestKey) == Value(m, CandidateDigestKey) == Value(m, GrantDigestKey),
      Value(m, ParametersMatchKey) == Bool(true),
      Value(m, CompensationClaimedKey) == Bool(true),
      if Value(m, CompensationAuthorizedKey).Bool? then Some(Value(m, CompensationAuthorizedKey).flag) else None,
      Number(m, CommittedKey) < Number(m, MaxEffectsKey),
      Number(m, TickKey) <= Number(m, ExpiryKey))
  }

  lemma KindNamesReadBack(kind: CheckKind)
    ensures KindOfName(Str(KindName(kind))) == kind
  {
  }

  lemma EvidenceEntry(g: Grant, r: Check, recomputed: string, f: Findings, v: Verdict, k: EvidenceKey)
    ensures Value(EvidenceOf(g, r, recomputed, f, v), k) == EvidenceValue(g, r, recomputed, f, v, k)
  {
    hide EvidenceValue, AllKeys;
    KeyListed(k);
  }

  /** The evidence supports exactly the findings it was made from. */
  lemma FindingsReadBack(g: Grant, r: Check, recomputed: string, v: Verdict)
    ensures var f := Compare(g, r, recomputed); FindingsOf(EvidenceOf(g, r, recomputed, f, v)) == f
  {
    hide EvidenceOf, Value, KindOfName, KindName, EvidenceValue, Print;
    var f := Compare(g, r, recomputed);
    FlagsKept(g, r, recomputed, f, v);
    FactsKept(g, r, recomputed, f, v);
    KindNamesReadBack(r.kind);
  }

  lemma FlagsKept(g: Grant, r: Check, recomputed: string, f: Findings, v: Verdict)
    ensures var m := EvidenceOf(g, r, recomputed, f, v);
            && Value(m, IdentityKey) == Bool(f.identityConfirmed) && Value(m, SubjectMatchKey) == Bool(f.subjectMatch)
            && Value(m, ServiceMatchKey) == Bool(f.serviceMatch)
            && Value(m, OperationMatchKey) == Bool(f.operationMatch)
            && Value(m, ParametersMatchKey) == Bool(f.parametersMatch)
            && Value(m, AuthorityMatchKey) == Bool(f.authorityIdMatch)
            && Value(m, DigestMatchKey) == Bool(f.intentDigestMatch)
            && Value(m, CardinalityValidKey) == Bool(f.cardinalityValid) && Value(m, TickValidKey) == Bool(f.tickValid)
            && Value(m, CompensationClaimedKey) == Bool(f.compensationClaimed)
            && Value(m, CompensationAuthorizedKey)
               == (if f.compensationAuthorized.Some? then Bool(f.compensationAuthorized.value) else Null)
  {
    hide EvidenceOf, Value;
    EvidenceEntry(g, r, recomputed, f, v, IdentityKey);
    EvidenceEntry(g, r, recomputed, f, v, SubjectMatchKey);
    EvidenceEntry(g, r, recomputed, f, v, ServiceMatchKey);
    EvidenceEntry(g, r, recomputed, f, v, OperationMatchKey);
    EvidenceEntry(g, r, recomputed, f, v, ParametersMatchKey);
    EvidenceEntry(g, r, recomputed, f, v, AuthorityMatchKey);
    EvidenceEntry(g, r, recomputed, f, v, DigestMatchKey);
    EvidenceEntry(g, r, recomputed, f, v, CardinalityValidKey);
    EvidenceEntry(g, r, recomputed, f, v, TickValidKey);
    EvidenceEntry(g, r, recomputed, f, v, CompensationClaimedKey);
    EvidenceEntry(g, r, recomputed, f, v, CompensationAuthorizedKey);
  }

  lemma FactsKept(g: Grant, r: Check, recomputed: string, f: Findings, v: Verdict)
    ensures var m := EvidenceOf(g, r, recomputed, f, v);
            && Value(m, KindKey) == Str(KindName(r.kind))
            && Value(m, ActionKey) == Str(r.candidate.actionId)
            && Value(m, OperationKeyKey) == Str(r.candidate.operationKey)
            && Value(m, AuthorityKey) == Str(r.candidate.authorityId)
            && Value(m, GrantAuthorityKey) == Str(g.authorityId)
            && Value(m, RecomputedDigestKey) == Str(recomputed)
            && Value(m, CandidateDigestKey) == Str(r.candidate.intentDigest)
            && Value(m, GrantDigestKey) == Str(g.intentDigest)
            && Value(m, CommittedKey) == Int(r.committedEffectCount) && Value(m, MaxEffectsKey) == Int(g.maxEffects)
            && Value(m, TickKey) == Int(r.currentTick) && Value(m, ExpiryKey) == Int(g.expiresAtTick)
  {
    hide EvidenceOf, Value, KindName;
    EvidenceEntry(g, r, recomputed, f, v, KindKey);
    EvidenceEntry(g, r, recomputed, f, v, ActionKey);
    EvidenceEntry(g, r, recomputed, f, v, OperationKeyKey);
    EvidenceEntry(g, r, recomputed, f, v, AuthorityKey);
    EvidenceEntry(g, r, recomputed, f, v, GrantAuthorityKey);
    EvidenceEntry(g, r, recomputed, f, v, RecomputedDigestKey);
    EvidenceEntry(g, r, recomputed, f, v, CandidateDigestKey);
    EvidenceEntry(g, r, recomputed, f, v, GrantDigestKey);
    EvidenceEntry(g, r, recomputed, f, v, CommittedKey);
    EvidenceEntry(g, r, recomputed, f, v, MaxEffectsKey);
    EvidenceEntry(g, r, recomputed, f, v, TickKey);
    EvidenceEntry(g, r, recomputed, f, v, ExpiryKey);
  }

  /** The four comparisons that are recomputed agree with what the map stores of them. */
  lemma StoredFlagsAgree(g: Grant, r: Check, recomputed: string, v: Verdict)
    ensures var m := EvidenceOf(g, r, recomputed, Compare(g, r, recomputed), v);
            var f := FindingsOf(m);
            && Value(m, AuthorityMatchKey) == Bool(f.authorityIdMatch)
            && Value(m, DigestMatchKey) == Bool(f.intentDigestMatch)
            && Value(m, CardinalityValidKey) == Bool(f.cardinalityValid)
            && Value(m, TickValidKey) == Bool(f.tickValid)
  {
    hide EvidenceOf, Value, FindingsOf, Compare;
    FindingsReadBack(g, r, recomputed, v);
    FlagsKept(g, r, recomputed, Compare(g, r, recomputed), v);
  }

  /** A decision's outcome is a function of its evidence map alone. */
  lemma OutcomeRecomputable(digest: string -> string, g: Grant, r: Check)
    requires CheckAuthority(digest, g, r).Some?
    ensures var d := CheckAuthority(digest, g, r).value;
            Decide(FindingsOf(d.evidence)) == Verdict(d.disposition, d.reason, d.target, d.cause)
  {
    hide Decide, FindingsOf, EvidenceOf, Compare, ValidGrant, ValidCheck, Print;
    var recomputed := digest(Print(IntentValue(r.intent)));
    FindingsReadBack(g, r, recomputed, Decide(Compare(g, r, recomputed)));
  }

  // ---------- When each disposition arises ----------

  /** The parameters match exactly when they are the same mapping, booleans and integers
      apart, whatever order either was filled in. */
  lemma ParametersMatchExactly(g: Grant, r: Check, recomputed: string)
    ensures Compare(g, r, recomputed).parametersMatch <==> r.intent.parameters == g.allowedParameters
  {
    PrintExact(Obj(r.intent.parameters), Obj(g.allowedParameters));
  }

  /** What each defect means for the grant and the request, in terms of the values
      themselves: equal identities, equal mappings, a separate grant that names the
      compensation. A read-only check is exempt from cardinality and expiry. */
  predicate Wrong(recomputed: string, g: Grant, r: Check, reason: AuthorityReason) {
    match reason
    case IdentityMismatch => r.candidate != r.confirmed
    case AuthorityIdMismatch => r.candidate.authorityId != g.authorityId
    case SubjectMismatch => r.subjectId != g.subjectId
    case ServiceMismatch => r.intent.service != g.service
    case OperationMismatch => r.intent.operation != g.operation
    case IntentDigestMismatch => !(recomputed == r.candidate.intentDigest == g.intentDigest)
    case ParametersMismatch => r.intent.parameters != g.allowedParameters
    case CompensationNotAuthorized => r.isCompensation && !CompensationNamed(g, r)
    case CardinalityExceeded => r.kind != ReadOnlyCheck && r.committedEffectCount >= g.maxEffects
    case AuthExpired => r.kind != ReadOnlyCheck && r.currentTick > g.expiresAtTick
    case _ => false
  }

  predicate CompensationNamed(g: Grant, r: Check) {
    && r.originalGrant.Some? && r.originalGrant.value.allowedCompensation == Some(r.candidate.actionId)
    && r.originalGrant.value.authorityId != g.authorityId
  }

  lemma ComparedFields(g: Grant, r: Check, recomputed: string)
    ensures var f := Compare(g, r, recomputed);
            && f.kind == r.kind && f.compensationClaimed == r.isCompensation
            && (f.identityConfirmed <==> r.candidate == r.confirmed)
            && (f.intentDigestMatch <==> recomputed == r.candidate.intentDigest == g.intentDigest)
            && (f.compensationAuthorized == if r.isCompensation then Some(CompensationNamed(g, r)) else None)
  {
    hide Print;
    SameIdentity(r.candidate, r.confirmed);
  }

  lemma MatchedFields(g: Grant, r: Check, recomputed: string)
    ensures var f := Compare(g, r, recomputed);
            && (f.authorityIdMatch <==> r.candidate.authorityId == g.authorityId)
            && (f.subjectMatch <==> r.subjectId == g.subjectId)
            && (f.serviceMatch <==> r.intent.service == g.service)
            && (f.operationMatch <==> r.intent.operation == g.operation)
            && (f.cardinalityValid <==> r.committedEffectCount < g.maxEffects)
            && (f.tickValid <==> r.currentTick <= g.expiresAtTick)
  {
    hide Print;
  }

  /** Each finding counts as a defect exactly when its meaning is violated. */
  lemma DefectExact(g: Grant, r: Check, recomputed: string, reason: AuthorityReason)
    ensures Defect(Compare(g, r, recomputed), reason) <==> Wrong(recomputed, g, r, reason)
  {
    hide Compare, CompensationNamed;
    ParametersMatchExactly(g, r, recomputed);
    ComparedFields(g, r, recomputed);
    MatchedFields(g, r, recomputed);
  }

  lemma SameIdentity(a: Identity, b: Identity)
    ensures a == b <==>
              a.actionId == b.actionId && a.operationKey == b.operationKey
              && a.intentDigest == b.intentDigest && a.authorityId == b.authorityId
  {
  }

  /** A check is allowed exactly when nothing is wrong, and stops safely exactly when it is
      passive and nothing but expiry is wrong; in every other case it is refused. What a
      decision that is not ALLOW reports is wrong, and nothing of higher precedence is. */
  lemma DecisionExact(digest: string -> string, g: Grant, r: Check)
    requires CheckAuthority(digest, g, r).Some?
    ensures var d := CheckAuthority(digest, g, r).value;
            var recomputed := digest(Print(IntentValue(r.intent)));
            && (d.disposition == Allow <==> forall reason: AuthorityReason :: !Wrong(recomputed, g, r, reason))
            && (d.disposition == Stop <==>
                  && r.kind == PassivePreDispatch && Wrong(recomputed, g, r, AuthExpired)
                  && forall reason: AuthorityReason | reason != AuthExpired :: !Wrong(recomputed, g, r, reason))
            && (d.disposition != Allow ==>
                  exists i :: 0 <= i < |REASON_PRECEDENCE| && d.reason == REASON_PRECEDENCE[i]
                              && Wrong(recomputed, g, r, REASON_PRECEDENCE[i])
                              && forall j | 0 <= j < i :: !Wrong(recomputed, g, r, REASON_PRECEDENCE[j]))
  {
    hide Print, IntentValue, Compare, Defect, Wrong, Decide, EvidenceOf, ValidGrant, ValidCheck, REASON_PRECEDENCE;
    var recomputed := digest(Print(IntentValue(r.intent)));
    forall reason: AuthorityReason { DefectExact(g, r, recomputed, reason); }
    KindCompared(g, r, recomputed);
    VerdictExact(Compare(g, r, recomputed));
  }

  /** An allowed check stays allowed, with the same reason and transition, at any earlier
      tick and with any fewer committed effects. */
  lemma AllowSurvives(digest: string -> string, g: Grant, r: Check, tick: nat, committed: nat)
    requires CheckAuthority(digest, g, r).Some? && CheckAuthority(digest, g, r).value.disposition == Allow
    requires tick <= r.currentTick && committed <= r.committedEffectCount
    ensures var earlier := CheckAuthority(digest, g, r.(currentTick := tick, committedEffectCount := committed));
            var d := CheckAuthority(digest, g, r).value;
            && earlier.Some? && earlier.value.disposition == Allow
            && earlier.value.reason == d.reason && earlier.value.target == d.target && earlier.value.cause == d.cause
  {
    var s := r.(currentTick := tick, committedEffectCount := committed);
    assert ValidCheck(s);
    hide ValidGrant, ValidCheck, EvidenceOf, Print, IntentValue, Compare, Wrong, Decide, REASON_PRECEDENCE;
    DecisionExact(digest, g, r);
    DecisionExact(digest, g, s);
    EarlierNotWorse(g, r, s, digest(Print(IntentValue(r.intent))));
    var recomputed := digest(Print(IntentValue(r.intent)));
    KindCompared(g, r, recomputed);
    KindCompared(g, s, recomputed);
    AllowedByKind(Compare(g, r, recomputed), Compare(g, s, recomputed));
  }

  lemma AllowedByKind(f: Findings, h: Findings)
    requires f.kind == h.kind && Decide(f).disposition == Allow && Decide(h).disposition == Allow
    ensures Decide(f) == Decide(h)
  {
    hide FirstDefect, REASON_PRECEDENCE;
  }

  lemma EarlierNotWorse(g: Grant, r: Check, s: Check, recomputed: string)
    requires s == r.(currentTick := s.currentTick, committedEffectCount := s.committedEffectCount)
    requires s.currentTick <= r.currentTick && s.committedEffectCount <= r.committedEffectCount
    ensures forall reason: AuthorityReason :: Wrong(recomputed, g, s, reason) ==> Wrong(recomputed, g, r, reason)
  {
  }

  lemma KindCompared(g: Grant, r: Check, recomputed: string)
    ensures Compare(g, r, recomputed).kind == r.kind
  {
    hide Print;
  }

  // ---------- Decisions and the state machine ----------

  /** A refusal's transition takes a machine in any other state to VIOLATION under its
      unchanged identity, without raising. */
  lemma RefusalDrivesMachine(d: Decision, m: Machine, e: Evidence)
    requires DecisionAccepted(d) && d.disposition == Refuse && m.state != Violation && Some(e.cause) == d.cause
    ensures var s := TakeStep(m, d.target.value, e, m.identity, None);
            && !s.raised && s.machine.state == Violation && s.machine.identity == m.identity
            && s.machine.history == m.history + [s.record] && s.record.violationReason.Some?
  {
    hide TakeStep, EvidenceAccepted;
    SucceedsExactly(m, Violation, e, m.identity, None);
    ReportKeepsIdentity(m, e);
  }

  lemma ReportKeepsIdentity(m: Machine, e: Evidence)
    ensures TakeStep(m, Violation, e, m.identity, None).machine.identity == m.identity
  {
    hide ReasonText, ChangedFields, EdgeFailure;
  }

  /** An authorization moves exactly a machine in PROPOSED, a safe stop exactly one in
      AUTHORIZED or RETRYABLE. */
  lemma AllowedMoves(d: Decision, m: Machine, e: Evidence)
    requires DecisionAccepted(d) && d.target.Some? && d.disposition != Refuse && Some(e.cause) == d.cause
    ensures var s := TakeStep(m, d.target.value, e, m.identity, None);
            !s.raised <==> (if d.disposition == Allow then m.state == Proposed
                            else m.state == Authorized || m.state == Retryable)
    ensures var s := TakeStep(m, d.target.value, e, m.identity, None);
            !s.raised ==> s.machine.state == (if d.disposition == Allow then Authorized else SafeStop)
  {
    hide TakeStep, EvidenceAccepted;
    SucceedsExactly(m, d.target.value, e, m.identity, None);
  }
}
