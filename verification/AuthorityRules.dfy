/** What the authority check answers, told of the grant and the request alone: when it
    answers at all, the one reason it gives, and the disposition and transition that go
    with the reason. */
module AuthorityRules {
  import opened Wrappers
  import opened CanonicalJson
  import opened StateMachine
  import opened Contracts
  import opened Grammars
  import opened PrintedText
  import opened Authority

  // ---------- When there is an answer ----------

  predicate IdentityFormed(id: Identity) {
    && TokenAfter("action-", id.actionId) && TokenAfter("op-", id.operationKey)
    && DigestText(id.intentDigest) && TokenAfter("auth-", id.authorityId)
  }

  ghost predicate GrantFormed(g: Grant) {
    && TokenAfter("auth-", g.authorityId) && TokenAfter("", g.subjectId)
    && NameText(g.service) && NameText(g.operation) && DigestText(g.intentDigest)
    && CleanMap(g.allowedParameters) && g.maxEffects != 0
    && (g.allowedCompensation.Some? ==> TokenAfter("action-", g.allowedCompensation.value))
  }

  ghost predicate CheckFormed(r: Check) {
    && IdentityFormed(r.candidate) && IdentityFormed(r.confirmed) && TokenAfter("", r.subjectId)
    && NameText(r.intent.service) && NameText(r.intent.operation) && CleanMap(r.intent.parameters)
    && (r.originalGrant.Some? ==> GrantFormed(r.originalGrant.value))
    && (r.isCompensation ==> r.kind != ReadOnlyCheck)
    && (!r.isCompensation ==> r.originalGrant.None?)
  }

  lemma IdentityExact(id: Identity)
    ensures ValidIdentity(id) <==> IdentityFormed(id)
  {
    hide PrefixedToken, TokenAfter, ValidDigest, DigestText;
    TokenExact("action-", id.actionId);
    TokenExact("op-", id.operationKey);
    TokenExact("auth-", id.authorityId);
    DigestExact(id.intentDigest);
  }

  lemma GrantExact(g: Grant)
    ensures ValidGrant(g) <==> GrantFormed(g)
  {
    hide PrefixedToken, TokenAfter, ValidDigest, DigestText, ValidParameterName, NameText, ValidEvidenceMap, CleanMap;
    TokenExact("auth-", g.authorityId);
    TokenExact("", g.subjectId);
    NameExact(g.service);
    NameExact(g.operation);
    DigestExact(g.intentDigest);
    MapExact(g.allowedParameters);
    if g.allowedCompensation.Some? { TokenExact("action-", g.allowedCompensation.value); }
  }

  lemma CheckExact(r: Check)
    ensures ValidCheck(r) <==> CheckFormed(r)
  {
    hide PrefixedToken, TokenAfter, ValidParameterName, NameText, ValidEvidenceMap, CleanMap, ValidIdentity,
         IdentityFormed, ValidGrant, GrantFormed;
    IdentityExact(r.candidate);
    IdentityExact(r.confirmed);
    TokenExact("", r.subjectId);
    NameExact(r.intent.service);
    NameExact(r.intent.operation);
    MapExact(r.intent.parameters);
    if r.originalGrant.Some? { GrantExact(r.originalGrant.value); }
  }

  /** A check is answered if and only if grant and request are well formed. */
  lemma AnsweredExactly(digest: string -> string, g: Grant, r: Check)
    ensures CheckAuthority(digest, g, r).Some? <==> GrantFormed(g) && CheckFormed(r)
  {
    hide ValidGrant, GrantFormed, ValidCheck, CheckFormed, Compare, Decide, EvidenceOf, Print, IntentValue;
    GrantExact(g);
    CheckExact(r);
  }

  // ---------- The digest that is recomputed ----------

  /** The canonical text of an intent, its members in code-point order. */
  function IntentText(i: Intent): string {
    "{" + "\"operation\":" + Print(Str(i.operation)) + "," + "\"parameters\":" + Print(Obj(i.parameters)) + ","
    + "\"service\":" + Print(Str(i.service)) + "}"
  }

  const INTENT_KEYS := ["operation", "parameters", "service"]

  lemma IntentKeysListed(i: Intent)
    ensures ListsKeys(INTENT_KEYS, IntentValue(i).fields)
  {
    assert "operation"[..0] == "parameters"[..0] && "parameters"[..0] == "service"[..0];
  }

  lemma PlainMember(name: string, quoted: string, m: map<string, Json>)
    requires name in m && quoted == "\"" + name + "\":" && forall i | 0 <= i < |name| :: !Special(name[i])
    ensures MemberText(m, name) == quoted + Print(m[name])
  {
    hide Print;
    PlainPrinted(name);
    assert "\"" + name + "\"" + ":" == "\"" + name + "\":";
  }

  lemma ThreeJoined(a: string, b: string, c: string)
    ensures Joined([a, b, c]) == a + "," + b + "," + c
  {
    assert [a, b, c][..2] == [a, b] && [a, b][..1] == [a];
    assert Joined([a]) == a;
    assert Joined([a, b]) == a + "," + b;
  }

  lemma IntentMembers(i: Intent)
    ensures var m := IntentValue(i).fields;
            && MemberText(m, "operation") == "\"operation\":" + Print(Str(i.operation))
            && MemberText(m, "parameters") == "\"parameters\":" + Print(Obj(i.parameters))
            && MemberText(m, "service") == "\"service\":" + Print(Str(i.service))
  {
    hide Print, MemberText;
    var m := IntentValue(i).fields;
    PlainMember("operation", "\"operation\":", m);
    PlainMember("parameters", "\"parameters\":", m);
    PlainMember("service", "\"service\":", m);
  }

  lemma IntentPrinted(i: Intent)
    ensures Print(IntentValue(i)) == IntentText(i)
  {
    hide Print, ListsKeys, Joined, MemberText;
    var m := IntentValue(i).fields;
    IntentKeysListed(i);
    MappingPrinted(m, INTENT_KEYS);
    IntentMembers(i);
    assert MemberTexts(m, INTENT_KEYS)
        == [MemberText(m, "operation"), MemberText(m, "parameters"), MemberText(m, "service")];
    ThreeJoined(MemberText(m, "operation"), MemberText(m, "parameters"), MemberText(m, "service"));
  }

  // ---------- The one reason ----------

  /** The compensation is named by an original grant other than the current one. */
  predicate CompensationGranted(g: Grant, r: Check) {
    match r.originalGrant
    case None => false
    case Some(original) =>
      original.allowedCompensation == Some(r.candidate.actionId) && original.authorityId != g.authorityId
  }

  /** The first thing wrong, or what is allowed when nothing is. */
  function ReasonFor(recomputed: string, g: Grant, r: Check): AuthorityReason {
    if r.candidate != r.confirmed then IdentityMismatch
    else if r.candidate.authorityId != g.authorityId then AuthorityIdMismatch
    else if r.subjectId != g.subjectId then SubjectMismatch
    else if r.intent.service != g.service then ServiceMismatch
    else if r.intent.operation != g.operation then OperationMismatch
    else if recomputed != r.candidate.intentDigest || recomputed != g.intentDigest then IntentDigestMismatch
    else if r.intent.parameters != g.allowedParameters then ParametersMismatch
    else if r.isCompensation && !CompensationGranted(g, r) then CompensationNotAuthorized
    else if r.kind == ReadOnlyCheck then ReadOnlyAllowed
    else if r.committedEffectCount >= g.maxEffects then CardinalityExceeded
    else if r.currentTick > g.expiresAtTick then AuthExpired
    else if r.kind == AuthorizeCheck then NewlyAuthorized
    else Revalidated
  }

  lemma LookAt(f: Findings, n: nat)
    requires n < |REASON_PRECEDENCE|
    ensures FirstDefect(f, REASON_PRECEDENCE[n..]) ==
              if Defect(f, REASON_PRECEDENCE[n]) then Some(REASON_PRECEDENCE[n])
              else FirstDefect(f, REASON_PRECEDENCE[n + 1..])
  {
    hide Defect, REASON_PRECEDENCE;
    assert REASON_PRECEDENCE[n..][1..] == REASON_PRECEDENCE[n + 1..];
  }

  lemma FindsFirst(f: Findings)
    ensures FirstDefect(f, REASON_PRECEDENCE) ==
              if Defect(f, IdentityMismatch) then Some(IdentityMismatch)
              else if Defect(f, AuthorityIdMismatch) then Some(AuthorityIdMismatch)
              else if Defect(f, SubjectMismatch) then Some(SubjectMismatch)
              else if Defect(f, ServiceMismatch) then Some(ServiceMismatch)
              else if Defect(f, OperationMismatch) then Some(OperationMismatch)
              else if Defect(f, IntentDigestMismatch) then Some(IntentDigestMismatch)
              else if Defect(f, ParametersMismatch) then Some(ParametersMismatch)
              else if Defect(f, CompensationNotAuthorized) then Some(CompensationNotAuthorized)
              else if Defect(f, CardinalityExceeded) then Some(CardinalityExceeded)
              else if Defect(f, AuthExpired) then Some(AuthExpired)
              else None
  {
    hide Defect, FirstDefect;
    LookAt(f, 0);
    LookAt(f, 1);
    LookAt(f, 2);
    LookAt(f, 3);
    LookAt(f, 4);
    LookAt(f, 5);
    LookAt(f, 6);
    LookAt(f, 7);
    LookAt(f, 8);
    LookAt(f, 9);
    assert REASON_PRECEDENCE[0..] == REASON_PRECEDENCE;
    assert FirstDefect(f, REASON_PRECEDENCE[10..]) == None by { FindsNothing(f, REASON_PRECEDENCE[10..]); }
  }

  lemma FindsNothing(f: Findings, reasons: seq<AuthorityReason>)
    requires |reasons| == 0
    ensures FirstDefect(f, reasons) == None
  {
  }

  lemma ReasonExact(g: Grant, r: Check, recomputed: string)
    ensures Decide(Compare(g, r, recomputed)).reason == ReasonFor(recomputed, g, r)
  {
    hide Compare, Defect, FirstDefect, REASON_PRECEDENCE;
    var f := Compare(g, r, recomputed);
    FindsFirst(f);
    KindCompared(g, r, recomputed);
    DefectExact(g, r, recomputed, IdentityMismatch);
    DefectExact(g, r, recomputed, AuthorityIdMismatch);
    DefectExact(g, r, recomputed, SubjectMismatch);
    DefectExact(g, r, recomputed, ServiceMismatch);
    DefectExact(g, r, recomputed, OperationMismatch);
    DefectExact(g, r, recomputed, IntentDigestMismatch);
    DefectExact(g, r, recomputed, ParametersMismatch);
    DefectExact(g, r, recomputed, CompensationNotAuthorized);
    DefectExact(g, r, recomputed, CardinalityExceeded);
    DefectExact(g, r, recomputed, AuthExpired);
  }

  // ---------- The answer ----------

  /** What each reason brings: only a first authorization moves an action on ALLOW, expiry
      found by a passive check stops it safely, and everything else is a violation. */
  predicate Brings(reason: AuthorityReason, kind: CheckKind, d: Decision) {
    if reason == NewlyAuthorized then
      d.disposition == Allow && d.target == Some(Authorized) && d.cause == Some(AuthorityConfirmed)
    else if reason == Revalidated || reason == ReadOnlyAllowed then
      d.disposition == Allow && d.target == None && d.cause == None
    else if reason == AuthExpired && kind == PassivePreDispatch then
      d.disposition == Stop && d.target == Some(SafeStop) && d.cause == Some(SafeStopSelected)
    else d.disposition == Refuse && d.target == Some(Violation) && d.cause == Some(InvariantViolation)
  }

  lemma VerdictBrings(f: Findings)
    ensures var v := Decide(f);
            forall m :: Brings(v.reason, f.kind, Decision(v.disposition, v.reason, m, v.target, v.cause))
  {
    hide Defect;
    FindsFirst(f);
    hide FirstDefect;
  }

  /** The whole answer of a check, told of grant and request. */
  lemma DecidedExactly(digest: string -> string, g: Grant, r: Check)
    requires CheckAuthority(digest, g, r).Some?
    ensures var d := CheckAuthority(digest, g, r).value;
            && d.reason == ReasonFor(digest(IntentText(r.intent)), g, r)
            && Brings(d.reason, r.kind, d)
  {
    hide Compare, Decide, EvidenceOf, Print, IntentValue, ReasonFor, ValidGrant, ValidCheck, Brings, IntentText;
    IntentPrinted(r.intent);
    var recomputed := digest(Print(IntentValue(r.intent)));
    ReasonExact(g, r, recomputed);
    KindCompared(g, r, recomputed);
    VerdictBrings(Compare(g, r, recomputed));
  }


  /** What is allowed depends on the kind of check alone: only an AUTHORIZE check brings
      the transition from PROPOSED, a read-only check is told apart, and every other check
      is revalidated without a transition. */
  lemma AllowedExactly(digest: string -> string, g: Grant, r: Check)
    requires CheckAuthority(digest, g, r).Some? && CheckAuthority(digest, g, r).value.disposition == Allow
    ensures var d := CheckAuthority(digest, g, r).value;
            && (d.reason == NewlyAuthorized <==> r.kind == AuthorizeCheck)
            && (d.target == Some(Authorized) && d.cause == Some(AuthorityConfirmed) <==> r.kind == AuthorizeCheck)
            && (d.reason == ReadOnlyAllowed <==> r.kind == ReadOnlyCheck)
            && (r.kind != AuthorizeCheck && r.kind != ReadOnlyCheck ==> d.reason == Revalidated)
            && (r.kind != AuthorizeCheck ==> d.target == None && d.cause == None)
  {
    hide CheckAuthority, IntentText, CompensationGranted;
    DecidedExactly(digest, g, r);
  }

  /** A check is allowed exactly when nothing its kind is subject to is wrong. */
  lemma AllowsExactly(digest: string -> string, g: Grant, r: Check)
    requires CheckAuthority(digest, g, r).Some?
    ensures CheckAuthority(digest, g, r).value.disposition == Allow <==>
              && r.candidate == r.confirmed && r.candidate.authorityId == g.authorityId
              && r.subjectId == g.subjectId && r.intent.service == g.service && r.intent.operation == g.operation
              && digest(IntentText(r.intent)) == r.candidate.intentDigest == g.intentDigest
              && r.intent.parameters == g.allowedParameters
              && (r.isCompensation ==> CompensationGranted(g, r))
              && (r.kind == ReadOnlyCheck
                  || (r.committedEffectCount < g.maxEffects && r.currentTick <= g.expiresAtTick))
  {
    hide CheckAuthority, IntentText, CompensationGranted;
    DecidedExactly(digest, g, r);
  }

  // ---------- The words of the evidence ----------

  function WordOfKind(k: CheckKind): string {
    if k == AuthorizeCheck then "authorize"
    else if k == PassivePreDispatch then "passive_pre_dispatch"
    else if k == PreDispatchWrite then "pre_dispatch_write"
    else if k == Redispatch then "redispatch"
    else "read_only"
  }

  function WordOfDisposition(d: Disposition): string {
    if d == Allow then "ALLOW" else if d == Stop then "SAFE_STOP" else "VIOLATION"
  }

  function WordOfReason(r: AuthorityReason): string {
    if r == IdentityMismatch then "IDENTITY_MISMATCH"
    else if r == AuthorityIdMismatch then "AUTHORITY_ID_MISMATCH"
    else if r == SubjectMismatch then "SUBJECT_MISMATCH"
    else if r == ServiceMismatch then "SERVICE_MISMATCH"
    else if r == OperationMismatch then "OPERATION_MISMATCH"
    else if r == IntentDigestMismatch then "INTENT_DIGEST_MISMATCH"
    else if r == ParametersMismatch then "PARAMETERS_MISMATCH"
    else if r == CompensationNotAuthorized then "COMPENSATION_NOT_AUTHORIZED"
    else if r == CardinalityExceeded then "CARDINALITY_EXCEEDED"
    else if r == AuthExpired then "AUTH_EXPIRED"
    else if r == NewlyAuthorized then "AUTHORIZED"
    else if r == Revalidated then "REVALIDATED"
    else "READ_ONLY_ALLOWED"
  }

  /** The evidence names the kind of check, the disposition and the reason in the words of
      the contract. */
  lemma EvidenceWorded(digest: string -> string, g: Grant, r: Check)
    requires CheckAuthority(digest, g, r).Some?
    ensures var d := CheckAuthority(digest, g, r).value;
            && Value(d.evidence, KindKey) == Str(WordOfKind(r.kind))
            && Value(d.evidence, DispositionKey) == Str(WordOfDisposition(d.disposition))
            && Value(d.evidence, AuthorityReasonKey) == Str(WordOfReason(d.reason))
  {
    hide Compare, Decide, EvidenceOf, Print, IntentValue, ValidGrant, ValidCheck, Value, EvidenceValue, KindName,
         DispositionName, ReasonName, WordOfKind, WordOfDisposition, WordOfReason;
    var recomputed := digest(Print(IntentValue(r.intent)));
    var f := Compare(g, r, recomputed);
    EvidenceEntry(g, r, recomputed, f, Decide(f), KindKey);
    EvidenceEntry(g, r, recomputed, f, Decide(f), DispositionKey);
    EvidenceEntry(g, r, recomputed, f, Decide(f), AuthorityReasonKey);
    NamedFields(g, r, recomputed, f, Decide(f));
    FactsKept(g, r, recomputed, f, Decide(f));
    KindWorded(r.kind);
    OutcomeWorded(Decide(f));
  }

  lemma KindWorded(k: CheckKind)
    ensures KindName(k) == WordOfKind(k)
  {
  }

  lemma OutcomeWorded(v: Verdict)
    ensures DispositionName(v.disposition) == WordOfDisposition(v.disposition)
    ensures ReasonName(v.reason) == WordOfReason(v.reason)
  {
  }
}
