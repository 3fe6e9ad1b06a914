/** Accepted tables that no sequence of calls can leave: a log that holds the number 1 where
    a call writes true, an attempt id where no call records one, and transitions of one
    action whose sequence numbers fall. */
module AcceptedUnreachable {
  import opened Wrappers
  import opened CanonicalJson
  import opened StateMachine
  import opened Histories
  import opened Contracts
  import opened LedgerTables
  import opened LedgerCalls
  import opened LedgerChecker
  import opened LedgerProtocol
  import opened LiveLedger
  import opened LedgerRefinement
  import opened LedgerReachable
  import opened LedgerHistory
  import opened AcceptedFold
  import opened WrittenTables
  import LedgerAtomicity
  import LiveReachability
  import LedgerSimulation
  import opened LiveInvariant

  /** The event with 1 for a flag that was true. */
  function Loosened(e: Event, k: FactKey): Event {
    e.(evidence := e.evidence[KeyName(k) := Int(1)])
  }

  /** Links to the same identity and attempt. */
  predicate SameOwner(l: Links, k: Links) {
    && k.actionId == l.actionId && k.attemptId == l.attemptId && k.operationKey == l.operationKey
    && k.intentDigest == l.intentDigest && k.authorityId == l.authorityId
  }

  /** Another event in the same place that the checker cannot tell from it. */
  ghost predicate Alike(e: Event, d: Event) {
    && d.seqNo == e.seqNo && d.tick == e.tick && d.kind == e.kind && SameOwner(e.links, d.links)
    && (e.kind != StateTransition ==> d.evidence == e.evidence)
    && forall facts: map<string, Json> :: EvidenceEquals(e.evidence, facts) ==> EvidenceEquals(d.evidence, facts)
  }

  lemma LoosenedAlike(e: Event, k: FactKey)
    requires e.kind == StateTransition && StoredTrue(e.evidence, k)
    ensures Alike(e, Loosened(e, k))
    ensures ValidEvent(e) ==> ValidEvent(Loosened(e, k))
  {
    hide KeyName, UrlLike, ValidParameterName;
    var d := Loosened(e, k);
    forall facts: map<string, Json> | EvidenceEquals(e.evidence, facts) ensures EvidenceEquals(d.evidence, facts) {
      assert d.evidence.Keys == e.evidence.Keys;
      assert EqualsFact(Bool(true), facts[KeyName(k)]);
    }
  }

  /** The same log but for one event. */
  ghost predicate OneAlike(events: seq<Event>, others: seq<Event>) {
    |others| == |events| && forall i | 0 <= i < |events| :: Alike(events[i], others[i])
  }

  lemma AlikeLength(events: seq<Event>, others: seq<Event>)
    requires OneAlike(events, others)
    ensures |others| == |events|
  {
    hide Alike;
  }

  lemma AlikeAt(events: seq<Event>, others: seq<Event>, n: int)
    requires OneAlike(events, others)
    ensures EventAt(events, n).Some? <==> EventAt(others, n).Some?
    ensures EventAt(events, n).Some? ==> Alike(EventAt(events, n).value, EventAt(others, n).value)
  {
    hide Alike;
  }

  lemma AlikeTransition(events: seq<Event>, others: seq<Event>, s: Snapshot, p: Persisted)
    requires OneAlike(events, others) && TransitionAccepted(events, s, p)
    ensures TransitionAccepted(others, s, p)
  {
    AlikeAt(events, others, p.eventSeq);
    AlikeAt(events, others, p.eventSeq - 1);
    hide EventAt, TransitionFacts, EvidenceEquals, OneAlike;
  }

  lemma AlikeAttempt(events: seq<Event>, others: seq<Event>, s: Snapshot, row: AttemptRow, ordinal: int)
    requires OneAlike(events, others) && AttemptRowAccepted(events, s, row, ordinal)
    ensures AttemptRowAccepted(others, s, row, ordinal)
  {
    AlikeAt(events, others, row.dispatchSeq);
    AlikeAt(events, others, row.transitionSeq);
    hide EventAt, EvidenceEquals, HistoryByAttempt, OneAlike;
  }

  lemma AlikeSnapshot(t: Tables, u: Tables, events: seq<Event>, others: seq<Event>, s: Snapshot)
    requires OneAlike(events, others) && u.attempts == t.attempts && SnapshotAccepted(t, events, s)
    ensures SnapshotAccepted(u, others, s)
  {
    AlikeAt(events, others, s.createdSeq);
    hide EventAt, OneAlike, AttemptRowAccepted, TransitionAccepted, EvidenceEquals;
    var rows := AttemptsOf(t, s.identity.actionId);
    assert AttemptsOf(u, s.identity.actionId) == rows;
    forall i | 0 <= i < |rows| ensures AttemptRowAccepted(others, s, rows[i], i + 1) {
      AlikeAttempt(events, others, s, rows[i], i + 1);
    }
    forall i | 0 <= i < |s.history| ensures TransitionAccepted(others, s, s.history[i]) {
      AlikeTransition(events, others, s, s.history[i]);
    }
  }

  lemma AlikeManaged(events: seq<Event>, others: seq<Event>)
    requires OneAlike(events, others)
    ensures ActualManaged(events) <= ActualManaged(others)
  {
    hide Alike, EvidenceEquals;
    forall n | n in ActualManaged(events) ensures n in ActualManaged(others) {
      var e :| e in events && Managed(e.kind) && e.seqNo == n;
      var i :| 0 <= i < |events| && events[i] == e;
      AlikeKind(events[i], others[i]);
      assert others[i] in others;
    }
  }

  lemma AlikeManagedBack(events: seq<Event>, others: seq<Event>)
    requires OneAlike(events, others)
    ensures ActualManaged(others) <= ActualManaged(events)
  {
    hide Alike, EvidenceEquals;
    forall n | n in ActualManaged(others) ensures n in ActualManaged(events) {
      var e :| e in others && Managed(e.kind) && e.seqNo == n;
      var i :| 0 <= i < |others| && others[i] == e;
      AlikeKind(events[i], others[i]);
      assert events[i] in events;
    }
  }

  lemma AlikeKind(e: Event, d: Event)
    requires Alike(e, d)
    ensures d.kind == e.kind && d.seqNo == e.seqNo && d.tick == e.tick
  {
  }

  lemma AlikeLog(events: seq<Event>, others: seq<Event>)
    requires OneAlike(events, others) && LogInv(events) && forall i | 0 <= i < |others| :: ValidEvent(others[i])
    ensures LogInv(others)
  {
    hide Alike, ValidEvent;
    forall i | 0 <= i < |events| ensures others[i].seqNo == events[i].seqNo && others[i].tick == events[i].tick {
      AlikeKind(events[i], others[i]);
    }
  }

  // ---------- Tables with another event text ----------

  lemma {:induction false} SnapshotsIgnoreEvents(t: Tables, u: Tables, rows: seq<OperationRow>)
    requires u == t.(events := u.events)
    ensures SnapshotsOfRows(u, rows) == SnapshotsOfRows(t, rows)
  {
    if |rows| > 0 {
      SnapshotsIgnoreEvents(t, u, rows[..|rows| - 1]);
      SnapshotIgnoresEvents(t, u, rows[|rows| - 1].identity.actionId);
      hide SnapshotOf;
    }
  }

  lemma SnapshotIgnoresEvents(t: Tables, u: Tables, a: string)
    requires u == t.(events := u.events)
    ensures SnapshotOf(u, a) == SnapshotOf(t, a)
  {
    hide Replay, Sql.OrderBy;
    assert TransitionsOf(u, a) == TransitionsOf(t, a) && AttemptsOf(u, a) == AttemptsOf(t, a);
  }

  lemma KeysIgnoreText(t: Tables, u: Tables, events: seq<Event>, others: seq<Event>)
    requires Keyed(t) && u == t.(events := u.events)
    requires RepEvents(t, events) && RepEvents(u, others) && LogInv(others)
    ensures Keyed(u)
  {
    hide ValidEvidenceMap, Print;
    forall i | 0 <= i < |u.events| ensures u.events[i].seqNo == i + 1 && u.events[i].tick >= 0 {
      assert others[i].seqNo == i + 1 && ValidEvent(others[i]);
    }
  }

  /** Replacing events by alike ones keeps acceptance. */
  lemma AlikeAccepted(t: Tables, u: Tables, runId: string, events: seq<Event>, others: seq<Event>)
    requires Accepted(t, runId) && u == t.(events := u.events)
    requires RepEvents(t, events) && RepEvents(u, others) && LogInv(events) && LogInv(others)
             && OneAlike(events, others)
    ensures Accepted(u, runId) && EventsOf(u) == Ok(others) && Snapshots(u) == Snapshots(t)
  {
    hide ForeignKeysHold, EventsOf, Snapshots, SnapshotAccepted, ActualManaged, ExpectedManaged, RepEvents, LogInv,
         OneAlike, MetadataAccepted, HasEvent, OrderedEvents, LatestEvent, NextSeq;
    EventsRead(t, events);
    EventsRead(u, others);
    assert |others| == |events| by { AlikeLength(events, others); }
    SameForeignKeys(t, u, |events|);
    SameListing(t, u);
    assert Contiguous(others) && TicksOrdered(others) by { LogParts(others); }
    forall s | s in Snapshots(t).value ensures SnapshotAccepted(u, others, s) {
      AlikeSnapshot(t, u, events, others, s);
    }
    AlikeManaged(events, others);
    AlikeManagedBack(events, others);
    SameExpected(t, u, Snapshots(t).value);
    SameMetadataRow(t, u, runId);
  }

  lemma LogParts(events: seq<Event>)
    requires LogInv(events)
    ensures Contiguous(events) && TicksOrdered(events)
  {
  }

  lemma SameMetadataRow(t: Tables, u: Tables, runId: string)
    requires u.metadata == t.metadata
    ensures MetadataAccepted(u, runId) == MetadataAccepted(t, runId)
  {
  }

  lemma SameForeignKeys(t: Tables, u: Tables, n: int)
    requires u == t.(events := u.events) && ForeignKeysHold(t)
    requires forall k: int :: HasEvent(t, k) <==> 1 <= k <= n
    requires forall k: int :: HasEvent(u, k) <==> 1 <= k <= n
    ensures ForeignKeysHold(u)
  {
    hide HasEvent;
    assert forall a :: HasOperation(t, a) ==> HasOperation(u, a);
  }

  lemma SameListing(t: Tables, u: Tables)
    requires u == t.(events := u.events)
    ensures Snapshots(u) == Snapshots(t)
  {
    hide SnapshotsOfRows;
    SnapshotsIgnoreEvents(t, u, OrderedOperations(t));
  }

  lemma SameExpected(t: Tables, u: Tables, ss: seq<Snapshot>)
    requires u == t.(events := u.events)
    ensures ExpectedManaged(u, ss) == ExpectedManaged(t, ss)
  {
    forall s: Snapshot ensures References(u, s) == References(t, s) {
      assert AttemptsOf(u, s.identity.actionId) == AttemptsOf(t, s.identity.actionId);
    }
    hide References;
  }

  // ---------- One such ledger ----------

  const WITNESS_ACTION := Identity("action-1", "op-1", "digest", "auth-1")
  const WITNESS_EVIDENCE := Evidence("e", InvariantViolation, true, true, true, true, true)

  /** Registering an action and reporting a violation of it, on fresh evidence. */
  function WitnessCalls(): seq<Call> {
    [RegisterCall(WITNESS_ACTION, 0), TransitionCall("action-1", Violation, WITNESS_EVIDENCE, WITNESS_ACTION, 0)]
  }

  lemma WitnessRegistered(v: Live)
    requires v == Empty("run-1")
    ensures var w := LiveRegister(v, WITNESS_ACTION, 0).0;
            && w.ops == map["action-1" := LiveOp(Fresh(WITNESS_ACTION), 1, [])] && !w.closed && w.order == ["action-1"]
            && |w.events| == 1 && LastTick(w.events) == 0
  {
  }

  lemma WitnessReported(v: Live)
    requires "action-1" in v.ops && v.ops["action-1"].machine == Fresh(WITNESS_ACTION) && v.ops["action-1"].log == []
    requires LastTick(v.events) == 0
    ensures var w := LiveTransition(v, "action-1", Violation, WITNESS_EVIDENCE, WITNESS_ACTION, 0).0;
            && "action-1" in w.ops && |w.ops["action-1"].log| == 1
            && w.ops["action-1"].log[0].evidence == WITNESS_EVIDENCE
  {
    hide TakeStep, StepEvents;
    assert ValidEvidenceId("e");
  }

  lemma WitnessRun() returns (v: Live)
    ensures Inv(Empty("run-1")) && v == LiveRun(Empty("run-1"), WitnessCalls()).0
    ensures "action-1" in v.ops && |v.ops["action-1"].log| == 1 && v.ops["action-1"].log[0].evidence == WITNESS_EVIDENCE
  {
    EmptyInv("run-1");
    var calls := WitnessCalls();
    var start := Empty("run-1");
    v := LiveRun(start, calls).0;
    hide Inv, LiveRun, LiveRegister, LiveTransition, LiveStep, OrderInv;
    LastOfRun(start, calls);
    assert calls[..1] == [calls[0]];
    LastOfRun(start, calls[..1]);
    assert calls[..1][..0] == [];
    assert LiveRun(start, []).0 == start by { RunOfNothing(start); }
    WitnessRegistered(start);
    CallIsStep(start, calls[0]);
    CallIsStep(LiveRegister(start, WITNESS_ACTION, 0).0, calls[1]);
    WitnessReported(LiveRegister(start, WITNESS_ACTION, 0).0);
  }

  lemma CallIsStep(v: Live, c: Call)
    requires OrderInv(v) && !v.closed
    ensures c.RegisterCall? ==> LiveStep(v, c) == LiveRegister(v, c.identity, c.tick)
    ensures c.TransitionCall? ==>
              LiveStep(v, c) == LiveTransition(v, c.actionId, c.target, c.evidence, c.candidate, c.tick)
  {
    hide LiveRegister, LiveTransition, LiveDispatch, LiveAppend, LiveSnapshots, SnapshotOfLive;
  }

  lemma RunOfNothing(v: Live)
    requires Inv(v)
    ensures LiveRun(v, []).0 == v
  {
  }

  /** The log with one flag of one event loosened. */
  function LoosenedLog(events: seq<Event>, n: int, k: FactKey): seq<Event>
    requires 1 <= n <= |events|
  {
    events[n - 1 := Loosened(events[n - 1], k)]
  }

  lemma LoosenedLogAlike(events: seq<Event>, n: int, k: FactKey)
    requires LogInv(events) && 1 <= n <= |events|
    requires events[n - 1].kind == StateTransition && StoredTrue(events[n - 1].evidence, k)
    ensures OneAlike(events, LoosenedLog(events, n, k)) && LogInv(LoosenedLog(events, n, k))
  {
    hide Alike, Loosened, StoredTrue, ValidEvent;
    var others := LoosenedLog(events, n, k);
    LoosenedAlike(events[n - 1], k);
    forall i | 0 <= i < |events| ensures Alike(events[i], others[i]) && ValidEvent(others[i]) {
      if i != n - 1 { AlikeItself(events[i]); }
    }
    AlikeLog(events, others);
  }

  lemma AlikeItself(e: Event)
    ensures Alike(e, e)
  {
    hide EvidenceEquals;
  }

  /** The key names a flag of the entry that is true. */
  predicate TrueFlag(r: Record, e: Evidence, k: FactKey) {
    FactValue(r, e, k) == Bool(true)
  }

  lemma FlagStored(r: Record, e: Evidence, k: FactKey)
    requires TrueFlag(r, e, k)
    ensures StoredTrue(TransitionFacts(r, e), k)
  {
    hide TransitionFacts, KeyName, FactValue;
    FactEntries(r, e);
  }

  lemma FlagReplaced(e: Event, k: FactKey)
    ensures !StoredTrue(Loosened(e, k).evidence, k)
  {
    hide KeyName;
  }

  /** The loosened event no longer states the flag of its entry. */
  lemma LoosenedNotStored(events: seq<Event>, s: Snapshot, j: nat, k: FactKey)
    requires j < |s.history| && 1 <= s.history[j].eventSeq <= |events|
    requires TrueFlag(s.history[j].record, s.history[j].evidence, k)
    ensures !TrueFlagsKept(LoosenedLog(events, s.history[j].eventSeq, k), s)
  {
    hide Loosened, StoredTrue, FactValue;
    var p := s.history[j];
    var others := LoosenedLog(events, p.eventSeq, k);
    FlagReplaced(events[p.eventSeq - 1], k);
    assert EventAt(others, p.eventSeq) == Some(Loosened(events[p.eventSeq - 1], k));
    assert !TrueFlagsStored(others, p);
  }

  /** Entry `j` of an action has its event, its place in the snapshot and a true flag. */
  predicate FlaggedEntry(v: Live, a: string, j: nat, k: FactKey) {
    a in v.ops && j < |v.ops[a].log| && TrueFlag(v.ops[a].log[j].record, v.ops[a].log[j].evidence, k)
  }

  lemma LiveEntry(v: Live, a: string, j: nat, k: FactKey)
    requires Inv(v) && FlaggedEntry(v, a, j, k)
    ensures LogInv(v.events) && OrderInv(v) && forall i | 0 <= i < |v.order| :: v.order[i] in v.ops
    ensures var n := v.ops[a].log[j].eventSeq;
            1 <= n <= |v.events| && v.events[n - 1].kind == StateTransition && StoredTrue(v.events[n - 1].evidence, k)
    ensures var s := SnapshotOfLive(v.ops[a]);
            j < |s.history| && s.history[j] == PersistedOf(v.ops[a].log[j])
    ensures SnapshotOfLive(v.ops[a]) in LiveSnapshots(v.order, v.ops)
  {
    hide Inv, StoredTrue, TransitionFacts, Linked, LogInv, OpInv, OrderInv, SnapshotOfLive, EventAt, TrueFlag;
    LogOrdered(v);
    OrderNames(v);
    OpOfInv(v, a);
    EntryStored(v.events, a, v.ops[a], j, k);
    EntryOfSnapshot(v.ops[a], j);
    ListedLive(v.order, v.ops, a);
  }

  lemma EntryStored(events: seq<Event>, a: string, op: LiveOp, j: nat, k: FactKey)
    requires OpInv(events, a, op) && j < |op.log| && TrueFlag(op.log[j].record, op.log[j].evidence, k)
    ensures var n := op.log[j].eventSeq;
            1 <= n <= |events| && events[n - 1].kind == StateTransition && StoredTrue(events[n - 1].evidence, k)
  {
    hide StoredTrue, TransitionFacts, Legal, After, IsProposal, IsPreparation, IsDispatch, TrueFlag;
    var e := op.log[j];
    assert Linked(events, op.machine.identity, e);
    FlagStored(e.record, e.evidence, k);
  }

  lemma OrderNames(v: Live)
    requires OrderInv(v)
    ensures forall i | 0 <= i < |v.order| :: v.order[i] in v.ops
  {
  }

  lemma EntryOfSnapshot(op: LiveOp, j: nat)
    requires j < |op.log|
    ensures var s := SnapshotOfLive(op); j < |s.history| && s.history[j] == PersistedOf(op.log[j])
  {
  }

  lemma ListedLive(order: seq<string>, ops: map<string, LiveOp>, a: string)
    requires a in order && forall i | 0 <= i < |order| :: order[i] in ops
    ensures a in ops && SnapshotOfLive(ops[a]) in LiveSnapshots(order, ops)
  {
    hide SnapshotOfLive;
    var i :| 0 <= i < |order| && order[i] == a;
    assert LiveSnapshots(order, ops)[i] == SnapshotOfLive(ops[a]);
  }

  /** Loosening any true flag of any entry of a reachable ledger leaves keyed and accepted
      tables that do not show what their log folds to. */
  lemma LoosenedTables(t: Tables, v: Live, a: string, j: nat, k: FactKey) returns (u: Tables)
    requires Keyed(t) && Rep(t, v) && Inv(v) && FlaggedEntry(v, a, j, k)
    ensures u == t.(events := u.events) && Keyed(u) && Accepted(u, v.runId) && !ShowsFold(u)
  {
    hide Inv, Keyed, Accepted, LogInv, OneAlike, ShowsFold, EventsOf, Snapshots, LiveSnapshots, SnapshotOfLive,
         StoredTrue, LoosenedLog, TrueFlagsKept, SeqsIncrease, Rep, TrueFlag;
    LiveEntry(v, a, j, k);
    MetadataExact(t, v, v.runId);
    RepresentingAccepted(t, v, v.runId);
    SnapshotsRead(t, v);
    var s := SnapshotOfLive(v.ops[a]);
    var n := v.ops[a].log[j].eventSeq;
    var others := LoosenedLog(v.events, n, k);
    LoosenedLogAlike(v.events, n, k);
    u := t.(events := RowsOfEvents(others));
    AlikeAccepted(t, u, v.runId, v.events, others);
    KeysIgnoreText(t, u, v.events, others);
    AcceptedFoldExactly(u, v.runId);
    LoosenedNotStored(v.events, s, j, k);
  }

  lemma WitnessFlag(r: Record)
    ensures TrueFlag(r, WITNESS_EVIDENCE, FreshKey)
  {
  }

  /** Acceptance does not imply reachability: these keyed and accepted tables are left by
      no sequence of calls on any fresh ledger. */
  lemma AcceptedNotReachable() returns (t: Tables)
    ensures Keyed(t) && Accepted(t, "run-1") && !ShowsFold(t)
    ensures forall runId: string, calls: seq<Call> :: Run(Create(runId), calls).0.tables != t
  {
    hide Inv, Keyed, Accepted, ShowsFold, Rep, LiveRun, Run;
    var v := WitnessRun();
    ReplayRefinesLive("run-1", WitnessCalls());
    var l := Run(Create("run-1"), WitnessCalls()).0;
    LedgerAtomicity.ReachableKeyed("run-1", WitnessCalls());
    RunIdFixed(Empty("run-1"), WitnessCalls());
    WitnessFlag(v.ops["action-1"].log[0].record);
    t := LoosenedTables(l.tables, v, "action-1", 0, FreshKey);
    forall runId: string, calls: seq<Call> ensures Run(Create(runId), calls).0.tables != t {
      LogDeterminesView(runId, calls);
    }
  }

  // ---------- Links the checker does not look at ----------

  /** The event with other effect, workflow and fault ids. */
  function Relinked(e: Event, effect: Option<string>, workflow: Option<string>, fault: Option<string>): Event {
    e.(links := e.links.(effectId := effect, workflowId := workflow, faultId := fault))
  }

  lemma RelinkedAlike(e: Event, effect: Option<string>, workflow: Option<string>, fault: Option<string>)
    ensures Alike(e, Relinked(e, effect, workflow, fault))
    ensures ValidEvent(e) ==> ValidEvent(Relinked(e, effect, workflow, fault))
  {
    hide EvidenceEquals, ValidEvidenceMap;
  }

  lemma RelinkedLogAlike(
    events: seq<Event>, n: nat, effect: Option<string>, workflow: Option<string>, fault: Option<string>)
    requires LogInv(events) && n < |events|
    ensures var others := events[n := Relinked(events[n], effect, workflow, fault)];
            OneAlike(events, others) && LogInv(others)
  {
    hide Alike, Relinked, ValidEvent;
    var others := events[n := Relinked(events[n], effect, workflow, fault)];
    RelinkedAlike(events[n], effect, workflow, fault);
    forall i | 0 <= i < |events| ensures Alike(events[i], others[i]) && ValidEvent(others[i]) {
      if i != n { AlikeItself(events[i]); }
    }
    AlikeLog(events, others);
  }

  /** Writing other effect, workflow or fault ids into any one event of a reachable ledger
      leaves keyed and accepted tables; when the event is managed and an id was written, no
      calls leave them. */
  lemma RelinkedTables(
    t: Tables, v: Live, n: nat, effect: Option<string>, workflow: Option<string>, fault: Option<string>)
    returns (u: Tables)
    requires Keyed(t) && Rep(t, v) && Inv(v) && n < |v.events|
    ensures u == t.(events := u.events) && Keyed(u) && Accepted(u, v.runId)
    ensures Managed(v.events[n].kind) && (effect.Some? || workflow.Some? || fault.Some?) ==>
              forall runId: string, calls: seq<Call> :: Run(Create(runId), calls).0.tables != u
  {
    hide Inv, Keyed, Accepted, LogInv, OneAlike, EventsOf, Snapshots, LiveSnapshots, Rep, Relinked, Run;
    LogOrdered(v);
    MetadataExact(t, v, v.runId);
    RepresentingAccepted(t, v, v.runId);
    var others := v.events[n := Relinked(v.events[n], effect, workflow, fault)];
    RelinkedLogAlike(v.events, n, effect, workflow, fault);
    u := t.(events := RowsOfEvents(others));
    AlikeAccepted(t, u, v.runId, v.events, others);
    KeysIgnoreText(t, u, v.events, others);
    if Managed(v.events[n].kind) && (effect.Some? || workflow.Some? || fault.Some?) {
      RelinkedNotPlain(u, others, v.events[n], n, effect, workflow, fault);
      forall runId: string, calls: seq<Call> ensures Run(Create(runId), calls).0.tables != u {
        ReachablePlain(runId, calls);
      }
    }
  }

  lemma RelinkedNotPlain(
    u: Tables, others: seq<Event>, e: Event, n: nat, effect: Option<string>, workflow: Option<string>,
    fault: Option<string>)
    requires RepEvents(u, others) && n < |others| && others[n] == Relinked(e, effect, workflow, fault)
    requires Managed(e.kind) && (effect.Some? || workflow.Some? || fault.Some?)
    ensures !ManagedRowsPlain(u)
  {
    hide Print;
    assert u.events[n] == RowOfEvent(others[n]);
    assert Managed(u.events[n].kind) && !LiveReachability.PlainLinks(u.events[n].links);
  }

  lemma ReachablePlain(runId: string, calls: seq<Call>)
    ensures ManagedRowsPlain(Run(Create(runId), calls).0.tables)
  {
    hide Run, Create, StoredInOrder, ManagedRowsPlain, BelowNext, IdsWithDispatches;
    ReachableTidy(runId, calls);
  }

  // ---------- Showing the fold is not enough ----------

  lemma PersistedRows(t: Tables, id: Identity, candidate: Identity, r: Record, e: Evidence, tick: nat)
    requires PersistStep(t, id, candidate, r, e, tick).Ok?
    ensures var rows := PersistStep(t, id, candidate, r, e, tick).value.0.transitions;
            && |rows| == |t.transitions| + 1 && rows[..|t.transitions|] == t.transitions
            && rows[|t.transitions|].attempted == r.attempted && rows[|t.transitions|].attemptId == r.attemptId
  {
    hide ValidEvent, RowOfEvent, TransitionFacts, NextSeq, LatestEvent, HasEvent, HasOperation, NextOrdinal;
  }

  /** In every reachable ledger an attempt id stands exactly with an attempted entry into
      IN_FLIGHT. */
  lemma ReachableIds(runId: string, calls: seq<Call>)
    ensures IdsWithDispatches(Run(Create(runId), calls).0.tables)
  {
    hide Run, Create, StoredInOrder, ManagedRowsPlain, BelowNext, IdsWithDispatches;
    ReachableTidy(runId, calls);
  }

  /** The step no public call takes: an attempt id on the way to AUTHORIZED. */
  function StrayStep(): Step {
    TakeStep(Fresh(WITNESS_ACTION), Authorized, WITNESS_EVIDENCE, WITNESS_ACTION, Some("attempt-1"))
  }

  lemma StrayRecord()
    ensures ValidAttemptId("attempt-1") && ValidEvidenceId("e")
    ensures StrayStep().record.resulting == Violation && StrayStep().record.attempted == Authorized
    ensures StrayStep().record.attemptId == Some("attempt-1")
  {
    assert "attempt-1"[8..] == "1" && "attempt-" <= "attempt-1";
    hide TakeStep;
    SucceedsExactly(Fresh(WITNESS_ACTION), Authorized, WITNESS_EVIDENCE, WITNESS_ACTION, Some("attempt-1"));
    RaisesExactly(Fresh(WITNESS_ACTION), Authorized, WITNESS_EVIDENCE, WITNESS_ACTION, Some("attempt-1"));
    RecordKeepsInputs(Fresh(WITNESS_ACTION), Authorized, WITNESS_EVIDENCE, WITNESS_ACTION, Some("attempt-1"));
  }

  lemma RegisteredRun() returns (v: Live)
    ensures Inv(Empty("run-1")) && v == LiveRun(Empty("run-1"), WitnessCalls()[..1]).0
    ensures v.ops == map["action-1" := LiveOp(Fresh(WITNESS_ACTION), 1, [])] && LastTick(v.events) == 0
  {
    EmptyInv("run-1");
    var calls := WitnessCalls()[..1];
    var start := Empty("run-1");
    v := LiveRun(start, calls).0;
    assert calls == [WitnessCalls()[0]] && calls[..0] == [];
    hide Inv, LiveRun, LiveRegister, LiveStep, OrderInv;
    LastOfRun(start, calls);
    assert LiveRun(start, []).0 == start by { RunOfNothing(start); }
    WitnessRegistered(start);
    CallIsStep(start, calls[0]);
  }

  lemma CommitKeepsRunId(v: Live, a: string, s: Step)
    requires a in v.ops
    ensures CommitStep(v, a, s, WITNESS_EVIDENCE, WITNESS_ACTION, 0).runId == v.runId
  {
    hide StepEvents;
  }

  function StrayLive(v: Live): Live
    requires "action-1" in v.ops
  {
    CommitStep(v, "action-1", StrayStep(), WITNESS_EVIDENCE, WITNESS_ACTION, 0)
  }

  predicate JustRegistered(v: Live) {
    v.ops == map["action-1" := LiveOp(Fresh(WITNESS_ACTION), 1, [])] && LastTick(v.events) == 0
  }

  lemma StrayIsStep(v: Live)
    requires JustRegistered(v)
    ensures "action-1" in v.ops && v.ops["action-1"].machine.identity == WITNESS_ACTION
    ensures StepOf(v.ops["action-1"], StrayStep(), Authorized, WITNESS_EVIDENCE, WITNESS_ACTION, Some("attempt-1"))
    ensures StrayStep().record.resulting != InFlight
  {
    StrayRecord();
    hide TakeStep, ValidAttemptId, ValidEvidenceId;
  }

  lemma StrayKeepsInv(v: Live)
    requires Inv(v) && JustRegistered(v)
    ensures "action-1" in v.ops && Inv(StrayLive(v)) && StrayLive(v).runId == v.runId
  {
    hide Inv, LogInv, OrderInv, StrayStep, StepOf, JustRegistered, CommitStep;
    LogOrdered(v);
    StrayIsStep(v);
    assert LastTick(v.events) == 0 by { JustRegisteredTick(v); }
    CommitKeepsInv(
      v, v.events, "action-1", StrayStep(), Authorized, WITNESS_EVIDENCE, WITNESS_ACTION, Some("attempt-1"), 0);
    assert v.(events := v.events, attempts := v.attempts) == v;
    CommitKeepsRunId(v, "action-1", StrayStep());
  }

  lemma JustRegisteredTick(v: Live)
    requires JustRegistered(v)
    ensures LastTick(v.events) == 0
  {
  }

  lemma StrayFolds(v: Live)
    requires JustRegistered(v) && FoldLog(v.events) == LiveView(v)
    ensures "action-1" in v.ops && FoldLog(StrayLive(v).events) == LiveView(StrayLive(v))
  {
    hide FoldLog, LiveView, StrayStep, StepOf, JustRegistered, CommitStep;
    StrayIsStep(v);
    FoldStep(v, v.events, "action-1", StrayStep(), Authorized, WITNESS_EVIDENCE, WITNESS_ACTION, Some("attempt-1"), 0);
    assert v.(events := v.events) == v;
  }

  /** Persisting the stray step on a registered action is consistent in every way the
      checker and the fold can see. */
  lemma StrayStored(t: Tables, v: Live) returns (u: Tables)
    requires Keyed(t) && Rep(t, v) && Inv(v) && FoldLog(v.events) == LiveView(v) && JustRegistered(v)
    ensures Keyed(u) && Accepted(u, v.runId) && ShowsFold(u) && !IdsWithDispatches(u)
  {
    hide Inv, Keyed, Accepted, ShowsFold, Rep, StrayStep, PersistStep, FoldLog, LiveView, CommitStep, OrderInv, LogInv,
         StepOf, JustRegistered;
    StrayIsStep(v);
    JustRegisteredTick(v);
    StrayKeepsInv(v);
    StrayFolds(v);
    LedgerSimulation.StepSimulated(
      t, v, "action-1", StrayStep(), Authorized, WITNESS_EVIDENCE, WITNESS_ACTION, Some("attempt-1"), 0);
    u := PersistStep(t, WITNESS_ACTION, WITNESS_ACTION, StrayStep().record, WITNESS_EVIDENCE, 0).value.0;
    LedgerAtomicity.PersistStepKeyed(t, WITNESS_ACTION, WITNESS_ACTION, StrayStep().record, WITNESS_EVIDENCE, 0);
    LogOrdered(StrayLive(v));
    RepresentingAccepted(u, StrayLive(v), v.runId);
    RepShowsFold(u, StrayLive(v));
    StrayRow(t);
  }

  lemma StrayRow(t: Tables)
    requires PersistStep(t, WITNESS_ACTION, WITNESS_ACTION, StrayStep().record, WITNESS_EVIDENCE, 0).Ok?
    ensures var u := PersistStep(t, WITNESS_ACTION, WITNESS_ACTION, StrayStep().record, WITNESS_EVIDENCE, 0).value.0;
            !IdsWithDispatches(u)
  {
    StrayRecord();
    hide PersistStep, StrayStep, ValidAttemptId, ValidEvidenceId;
    PersistedRows(t, WITNESS_ACTION, WITNESS_ACTION, StrayStep().record, WITNESS_EVIDENCE, 0);
  }

  /** Nor does acceptance together with the fold imply reachability: these tables violate
      nothing but that an attempt id goes with an attempted entry into IN_FLIGHT. */
  lemma ShowsFoldNotReachable() returns (t: Tables)
    ensures Keyed(t) && Accepted(t, "run-1") && ShowsFold(t)
    ensures forall runId: string, calls: seq<Call> :: Run(Create(runId), calls).0.tables != t
  {
    var v := RegisteredRun();
    var calls := WitnessCalls()[..1];
    hide Inv, Keyed, Accepted, ShowsFold, Rep, LiveRun, Run, IdsWithDispatches, FoldLog, LiveView;
    ReplayRefinesLive("run-1", calls);
    LedgerAtomicity.ReachableKeyed("run-1", calls);
    RunIdFixed(Empty("run-1"), calls);
    EmptyFold();
    FoldRun(Empty("run-1"), calls);
    assert JustRegistered(v);
    t := StrayStored(Run(Create("run-1"), calls).0.tables, v);
    forall runId: string, more: seq<Call> ensures Run(Create(runId), more).0.tables != t {
      ReachableIds(runId, more);
    }
  }

  lemma EmptyFold()
    ensures FoldLog(Empty("run-1").events) == LiveView(Empty("run-1"))
  {
  }
}
