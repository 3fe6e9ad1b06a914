/** The log as the whole truth: folding the events alone gives what the operation tables
    show. And the permits handed out over a run: no attempt id is permitted twice, and
    each permit's two events stand in every later log. */
module LedgerHistory {
  import opened Wrappers
  import opened StateMachine
  import opened Histories
  import opened Contracts
  import opened LedgerTables
  import opened LedgerCalls
  import opened LedgerChecker
  import opened LedgerProtocol
  import opened LiveLedger
  import opened LiveInvariant
  import opened LedgerRefinement
  import opened LedgerSimulation
  import opened LedgerReachable

  // ---------- Folding the log ----------

  /** Actions in order of proposal, and a snapshot of each. */
  datatype View = View(order: seq<string>, operations: map<string, Snapshot>)

  function LinkedIdentity(links: Links): Identity {
    Identity(links.actionId.GetOr(""), links.operationKey.GetOr(""), links.intentDigest.GetOr(""),
             links.authorityId.GetOr(""))
  }

  function ProposeIn(view: View, e: Event): View {
    var id := LinkedIdentity(e.links);
    View(view.order + [id.actionId],
         view.operations[id.actionId := Snapshot(id, Proposed, e.seqNo, e.seqNo, [], [])])
  }

  /** One more transition of an action. */
  function Moved(s: Snapshot, e: Event): Snapshot {
    var r := RecordOfFacts(e.evidence);
    Snapshot(s.identity, r.resulting, s.createdSeq, e.seqNo,
             if r.resulting == InFlight && r.attemptId.Some? then s.attemptIds + [r.attemptId.value] else s.attemptIds,
             s.history + [Persisted(r, EvidenceOfFacts(e.evidence), e.seqNo)])
  }

  function MoveIn(view: View, e: Event): View {
    var a := LinkedIdentity(e.links).actionId;
    if a !in view.operations then view
    else view.(operations := view.operations[a := Moved(view.operations[a], e)])
  }

  /** The view the log alone determines; only proposals and transitions matter to it. */
  function FoldLog(events: seq<Event>): View {
    if |events| == 0 then View([], map[])
    else
      var view := FoldLog(events[..|events| - 1]);
      var e := events[|events| - 1];
      if e.kind == ActionProposed then ProposeIn(view, e)
      else if e.kind == StateTransition then MoveIn(view, e)
      else view
  }

  function LiveView(v: Live): View {
    View(v.order, map a | a in v.ops :: SnapshotOfLive(v.ops[a]))
  }

  lemma FoldAppend(events: seq<Event>, e: Event)
    ensures FoldLog(events + [e]) ==
              if e.kind == ActionProposed then ProposeIn(FoldLog(events), e)
              else if e.kind == StateTransition then MoveIn(FoldLog(events), e)
              else FoldLog(events)
  {
    assert (events + [e])[..|events|] == events;
  }

  /** The last event of a step is all the fold sees of it. */
  lemma FoldStepEvents(events: seq<Event>, id: Identity, r: Record, e: Evidence, tick: nat)
    ensures var more := StepEvents(events, id, r, e, tick);
            && |more| > 0
            && more[|more| - 1]
                 == Event(|more|, tick, StateTransition, IdentityLinks(id, r.attemptId), TransitionFacts(r, e))
            && FoldLog(more) == MoveIn(FoldLog(events), more[|more| - 1])
  {
    hide FoldLog, TransitionFacts, SuccessfullyPrepared, MoveIn;
    var prepared := Lifecycle(events, tick, OperationPrepared, id, None, map[]);
    FoldAppend(events, prepared);
    var before := if SuccessfullyPrepared(r) then events + [prepared] else events;
    FoldAppend(before, Lifecycle(before, tick, StateTransition, id, r.attemptId, TransitionFacts(r, e)));
  }

  /** Folding a transition event into the live view moves the snapshot as the step does. */
  lemma MoveInLive(v: Live, a: string, s: Step, e: Evidence, candidate: Identity, last: Event)
    requires a in v.ops && v.ops[a].machine.identity.actionId == a
    requires last.links == IdentityLinks(v.ops[a].machine.identity, s.record.attemptId)
    requires last.evidence == TransitionFacts(s.record, e)
    requires s.record.evidenceId == e.evidenceId && s.record.cause == e.cause
    requires s.machine.identity == v.ops[a].machine.identity && s.machine.state == s.record.resulting
    requires s.record.resulting == InFlight ==> s.record.attemptId.Some?
    requires s.machine.attemptIds == v.ops[a].machine.attemptIds
               + if s.record.resulting == InFlight then [s.record.attemptId.value] else []
    ensures MoveIn(LiveView(v), last)
         == View(v.order, LiveView(v).operations[a := SnapshotOfLive(NextOp(v.ops[a], s, e, candidate, last.seqNo))])
  {
    hide TransitionFacts, RecordOfFacts, EvidenceOfFacts;
    FactsReadBack(s.record, e);
    SnapshotMoves(v.ops[a], s, e, candidate, last.seqNo);
    assert v.ops[a].machine.attemptIds + [] == v.ops[a].machine.attemptIds;
    assert SnapshotOfLive(v.ops[a]).attemptIds == v.ops[a].machine.attemptIds;
    var moved := MoveIn(LiveView(v), last).operations[a];
    assert moved == SnapshotOfLive(NextOp(v.ops[a], s, e, candidate, last.seqNo));
  }

  /** One step's events, folded, make the step's new snapshot. */
  lemma FoldStep(
    v: Live, mid: seq<Event>, a: string, s: Step,
    target: State, e: Evidence, candidate: Identity, attemptId: Option<string>, tick: nat)
    requires a in v.ops && FoldLog(mid) == LiveView(v) && v.ops[a].machine.identity.actionId == a
    requires StepOf(v.ops[a], s, target, e, candidate, attemptId)
    ensures var after := CommitStep(v.(events := mid), a, s, e, candidate, tick);
            FoldLog(after.events) == LiveView(after)
  {
    hide FoldLog, TransitionFacts, TakeStep, ValidAttemptId, ValidEvidenceId, Link, Fits, Replayed, StepEvents,
         MoveIn, SnapshotOfLive;
    var op := v.ops[a];
    RecordKeepsInputs(op.machine, target, e, candidate, attemptId);
    StepFits(op, s, target, e, candidate, attemptId, 0);
    FittingEntry(op.machine, Entry(s.record, e, candidate, 0));
    AttemptOfLink(op.machine.state, Entry(s.record, e, candidate, 0));
    FoldStepEvents(mid, op.machine.identity, s.record, e, tick);
    var more := StepEvents(mid, op.machine.identity, s.record, e, tick);
    MoveInLive(v, a, s, e, candidate, more[|more| - 1]);
    var after := CommitStep(v.(events := mid), a, s, e, candidate, tick);
    assert after.ops == v.ops[a := NextOp(op, s, e, candidate, |more|)];
    assert LiveView(after).operations == LiveView(v).operations[a := SnapshotOfLive(after.ops[a])];
  }

  lemma AttemptOfLink(source: State, e: Entry)
    requires Link(source, e)
    ensures e.record.resulting == InFlight ==> e.record.attemptId.Some?
  {
    hide ValidAttemptId, GuardHolds;
  }

  lemma SnapshotMoves(op: LiveOp, s: Step, e: Evidence, candidate: Identity, n: int)
    ensures SnapshotOfLive(NextOp(op, s, e, candidate, n)) ==
              Snapshot(s.machine.identity, s.machine.state, op.createdSeq, n, s.machine.attemptIds,
                       SnapshotOfLive(op).history + [Persisted(s.record, e, n)])
  {
    assert PersistedOfLog(op.log + [Entry(s.record, e, candidate, n)])
        == PersistedOfLog(op.log) + [Persisted(s.record, e, n)];
  }

  lemma FoldTransition(v: Live, a: string, target: State, e: Evidence, candidate: Identity, tick: nat)
    requires Inv(v) && FoldLog(v.events) == LiveView(v)
    ensures var after := LiveTransition(v, a, target, e, candidate, tick).0; FoldLog(after.events) == LiveView(after)
  {
    hide FoldLog, LiveView, TakeStep, ValidEvidenceId, Inv, CommitStep;
    var after := LiveTransition(v, a, target, e, candidate, tick).0;
    if after != v {
      InvNamesActions(v);
      FoldStep(v, v.events, a, TakeStep(v.ops[a].machine, target, e, candidate, None), target, e, candidate,
               None, tick);
      assert v.(events := v.events) == v;
    }
  }

  lemma FoldDispatch(v: Live, a: string, x: string, e: Evidence, candidate: Identity, tick: nat)
    requires Inv(v) && FoldLog(v.events) == LiveView(v)
    ensures var after := LiveDispatch(v, a, x, e, candidate, tick).0; FoldLog(after.events) == LiveView(after)
  {
    hide FoldLog, TakeStep, ValidEvidenceId, ValidAttemptId, Inv, CommitStep, SnapshotOfLive;
    var after := LiveDispatch(v, a, x, e, candidate, tick).0;
    if after != v {
      InvNamesActions(v);
      var s := TakeStep(v.ops[a].machine, InFlight, e, candidate, Some(x));
      if s.raised {
        FoldStep(v, v.events, a, s, InFlight, e, candidate, Some(x), tick);
        assert v.(events := v.events) == v;
      } else {
        var dispatch := Lifecycle(v.events, tick, AttemptDispatched, v.ops[a].machine.identity, Some(x), map[]);
        FoldAppend(v.events, dispatch);
        var w := v.(attempts := v.attempts + {x});
        assert LiveView(w) == LiveView(v);
        FoldStep(w, v.events + [dispatch], a, s, InFlight, e, candidate, Some(x), tick);
      }
    }
  }

  lemma FoldRegister(v: Live, id: Identity, tick: nat)
    requires FoldLog(v.events) == LiveView(v)
    ensures var after := LiveRegister(v, id, tick).0; FoldLog(after.events) == LiveView(after)
  {
    hide FoldLog, SnapshotOfLive, ProposeIn, MoveIn;
    var after := LiveRegister(v, id, tick).0;
    if after != v {
      var event := Lifecycle(v.events, tick, ActionProposed, id, None, map[]);
      FoldAppend(v.events, event);
      ProposalSeen(v, id, event);
      assert LiveView(after).operations ==
             LiveView(v).operations[id.actionId := SnapshotOfLive(after.ops[id.actionId])];
    }
  }

  lemma ProposalSeen(v: Live, id: Identity, event: Event)
    requires event.links == IdentityLinks(id, None)
    ensures ProposeIn(LiveView(v), event)
         == View(v.order + [id.actionId],
                 LiveView(v).operations[id.actionId := SnapshotOfLive(LiveOp(Fresh(id), event.seqNo, []))])
  {
    assert PersistedOfLog([]) == [];
  }

  lemma FoldCall(v: Live, c: Call)
    requires Inv(v) && OrderInv(v) && FoldLog(v.events) == LiveView(v)
    ensures var after := LiveStep(v, c).0; FoldLog(after.events) == LiveView(after)
  {
    hide Inv, OrderInv, FoldLog, LiveRegister, LiveTransition, LiveDispatch, LiveSnapshots, SnapshotOfLive, ValidEvent;
    match c {
      case AppendCall(e) => FoldAppend(v.events, e);
      case RegisterCall(id, tick) => FoldRegister(v, id, tick);
      case TransitionCall(a, target, e, candidate, tick) => FoldTransition(v, a, target, e, candidate, tick);
      case DispatchCall(a, x, e, candidate, tick) => FoldDispatch(v, a, x, e, candidate, tick);
      case _ =>
    }
  }

  lemma {:induction false} FoldRun(v: Live, calls: seq<Call>)
    requires Inv(v) && FoldLog(v.events) == LiveView(v)
    ensures var after := LiveRun(v, calls).0; FoldLog(after.events) == LiveView(after)
  {
    if |calls| > 0 {
      hide Inv, FoldLog, LiveView, LiveStep, OrderInv;
      FoldRun(v, calls[..|calls| - 1]);
      var before := LiveRun(v, calls[..|calls| - 1]).0;
      LogOrdered(before);
      FoldCall(before, calls[|calls| - 1]);
    }
  }

  function ViewSnapshots(view: View): seq<Snapshot>
    requires forall i | 0 <= i < |view.order| :: view.order[i] in view.operations
  {
    seq(|view.order|, i requires 0 <= i < |view.order| => view.operations[view.order[i]])
  }

  /** The tables show exactly what the log folds to. */
  predicate ShowsFold(t: Tables) {
    && EventsOf(t).Ok?
    && var view := FoldLog(EventsOf(t).value);
    && (forall i | 0 <= i < |view.order| :: view.order[i] in view.operations)
    && Snapshots(t) == Ok(ViewSnapshots(view))
  }

  lemma RepShowsFold(t: Tables, v: Live)
    requires Rep(t, v) && Inv(v) && OrderInv(v) && FoldLog(v.events) == LiveView(v)
    ensures ShowsFold(t)
  {
    hide Inv, Rep, FoldLog, EventsOf, Snapshots, NextSeq, SnapshotOfLive;
    LogRead(t, v);
    SnapshotsRead(t, v);
    assert ViewSnapshots(LiveView(v)) == LiveSnapshots(v.order, v.ops);
  }

  /** The event log alone determines the view: in every reachable ledger, folding the
      events read back gives exactly the snapshots read from the operation, transition
      and attempt tables, in the same order. */
  lemma LogDeterminesView(runId: string, calls: seq<Call>)
    ensures ShowsFold(Run(Create(runId), calls).0.tables)
  {
    var v := Reached(runId, calls);
    assert FoldLog(Empty(runId).events) == LiveView(Empty(runId));
    hide Inv, Rep, FoldLog, Run, LiveRun, Create, Empty, ShowsFold, OrderInv, LiveView;
    FoldRun(Empty(runId), calls);
    RepShowsFold(Run(Create(runId), calls).0.tables, v);
  }

  // ---------- Sequence numbers of one action ----------

  /** The sequence number a snapshot's transition must come after. */
  function SeqFound(s: Snapshot, j: nat): int
    requires j <= |s.history|
  {
    if j == 0 then s.createdSeq else s.history[j - 1].eventSeq
  }

  predicate RisesAt(s: Snapshot, j: nat)
    requires j < |s.history|
  {
    SeqFound(s, j) < s.history[j].eventSeq
  }

  predicate SeqsIncrease(s: Snapshot) {
    forall j | 0 <= j < |s.history| :: RisesAt(s, j)
  }

  lemma LiveSeqsIncrease(v: Live, a: string)
    requires Inv(v) && a in v.ops
    ensures SeqsIncrease(SnapshotOfLive(v.ops[a]))
  {
    OpOfInv(v, a);
    SeqsOfOp(v.events, a, v.ops[a]);
  }

  lemma SeqsOfOp(events: seq<Event>, a: string, op: LiveOp)
    requires OpInv(events, a, op)
    ensures SeqsIncrease(SnapshotOfLive(op))
  {
    hide Legal, After, Linked, IsProposal;
    var s := SnapshotOfLive(op);
    forall j | 0 <= j < |s.history| ensures RisesAt(s, j) {
      assert SeqBefore(op, j) < op.log[j].eventSeq;
    }
  }

  /** In every reachable ledger an action's transitions have strictly increasing sequence
      numbers, all after its proposal. */
  lemma TransitionsFollowProposal(runId: string, calls: seq<Call>, a: string)
    ensures var s := SnapshotOf(Run(Create(runId), calls).0.tables, a); s.Ok? ==> SeqsIncrease(s.value)
  {
    var v := Reached(runId, calls);
    hide Inv, Rep, Run, LiveRun, Create, Empty, SnapshotOf, LoadMachine, AttemptsOf, TransitionsOf, SeqsIncrease;
    MachineRead(Run(Create(runId), calls).0.tables, v, a);
    if a in v.ops {
      LiveSeqsIncrease(v, a);
    }
  }

  // ---------- Permits ----------

  /** A permit's two events are adjacent in the log, at one tick, under the action's
      registered identity, and the second records the entry into IN_FLIGHT. */
  predicate PermitStands(v: Live, p: Permit) {
    && p.actionId in v.ops
    && var id := v.ops[p.actionId].machine.identity;
    && IsDispatch(EventAt(v.events, p.dispatchSeq), id, p.attemptId)
    && IsTransition(EventAt(v.events, p.transitionSeq), id, Some(p.attemptId))
    && p.transitionSeq == p.dispatchSeq + 1
    && EventAt(v.events, p.transitionSeq).value.tick == EventAt(v.events, p.dispatchSeq).value.tick
    && RecordOfFacts(EventAt(v.events, p.transitionSeq).value.evidence).resulting == InFlight
    && p.attemptId in v.attempts
  }

  /** A live ledger only grows: its log is extended, its issued attempt ids are kept, and
      its actions keep their identities. */
  predicate Grows(v: Live, w: Live) {
    && v.events <= w.events && v.attempts <= w.attempts
    && forall a | a in v.ops :: a in w.ops && w.ops[a].machine.identity == v.ops[a].machine.identity
  }

  lemma PermitPersists(v: Live, w: Live, p: Permit)
    requires Grows(v, w) && PermitStands(v, p)
    ensures PermitStands(w, p)
  {
    hide RecordOfFacts;
    assert EventAt(w.events, p.dispatchSeq) == EventAt(v.events, p.dispatchSeq);
    assert EventAt(w.events, p.transitionSeq) == EventAt(v.events, p.transitionSeq);
  }

  lemma CommitGrows(
    v: Live, mid: seq<Event>, attempts: set<string>, a: string, s: Step,
    target: State, e: Evidence, candidate: Identity, attemptId: Option<string>, tick: nat)
    requires a in v.ops && v.events <= mid && v.attempts <= attempts
             && StepOf(v.ops[a], s, target, e, candidate, attemptId)
    ensures Grows(v, CommitStep(v.(events := mid, attempts := attempts), a, s, e, candidate, tick))
  {
    hide TakeStep, ValidAttemptId, ValidEvidenceId, StepEvents, Link, Fits;
    StepFits(v.ops[a], s, target, e, candidate, attemptId, 0);
    FittingEntry(v.ops[a].machine, Entry(s.record, e, candidate, 0));
    StepExtends(mid, v.ops[a].machine.identity, s.record, e, tick);
  }

  /** One call grows the ledger, and a permit it hands out names a new attempt id whose
      events it has just written. */
  lemma CallGrows(v: Live, c: Call)
    requires Inv(v) && OrderInv(v)
    ensures var (w, outcome) := LiveStep(v, c);
            && Grows(v, w)
            && (outcome.Permitted? ==> outcome.permit.attemptId !in v.attempts && PermitStands(w, outcome.permit))
  {
    hide Inv, OrderInv, LiveDispatch, LiveTransition, LiveSnapshots, SnapshotOfLive, ValidEvent, PermitStands,
         Lifecycle;
    match c {
      case TransitionCall(a, target, e, candidate, tick) => TransitionGrows(v, a, target, e, candidate, tick);
      case DispatchCall(a, x, e, candidate, tick) => DispatchGrows(v, a, x, e, candidate, tick);
      case _ =>
    }
  }

  lemma TransitionGrows(v: Live, a: string, target: State, e: Evidence, candidate: Identity, tick: nat)
    ensures var (w, outcome) := LiveTransition(v, a, target, e, candidate, tick); Grows(v, w) && !outcome.Permitted?
  {
    hide TakeStep, ValidEvidenceId, CommitStep;
    var w := LiveTransition(v, a, target, e, candidate, tick).0;
    if w != v {
      assert v.(events := v.events, attempts := v.attempts) == v;
      CommitGrows(v, v.events, v.attempts, a, TakeStep(v.ops[a].machine, target, e, candidate, None),
                  target, e, candidate, None, tick);
    }
  }

  lemma DispatchGrows(v: Live, a: string, x: string, e: Evidence, candidate: Identity, tick: nat)
    requires Inv(v)
    ensures var (w, outcome) := LiveDispatch(v, a, x, e, candidate, tick);
            && Grows(v, w)
            && (outcome.Permitted? ==> outcome.permit.attemptId !in v.attempts && PermitStands(w, outcome.permit))
  {
    hide Inv, TakeStep, ValidEvidenceId, ValidAttemptId, CommitStep, PermitStands, Grows;
    assert Grows(v, v) by { GrowsSelf(v); }
    if ValidAttemptId(x) && ValidEvidenceId(e.evidenceId) && a in v.ops && v.ops[a].machine.state != Violation {
      var m := v.ops[a].machine;
      var s := TakeStep(m, InFlight, e, candidate, Some(x));
      assert v.(events := v.events, attempts := v.attempts) == v;
      if s.raised {
        CommitGrows(v, v.events, v.attempts, a, s, InFlight, e, candidate, Some(x), tick);
      } else {
        SucceedsExactly(m, InFlight, e, candidate, Some(x));
        var mid := v.events + [Lifecycle(v.events, tick, AttemptDispatched, m.identity, Some(x), map[])];
        CommitGrows(v, mid, v.attempts + {x}, a, s, InFlight, e, candidate, Some(x), tick);
        InvNamesActions(v);
        DispatchStands(v, a, s, x, e, candidate, tick);
      }
    }
  }

  lemma GrowsSelf(v: Live)
    ensures Grows(v, v)
  {
  }

  lemma DispatchStands(v: Live, a: string, s: Step, x: string, e: Evidence, candidate: Identity, tick: nat)
    requires a in v.ops && v.ops[a].machine.identity.actionId == a
    requires StepOf(v.ops[a], s, InFlight, e, candidate, Some(x)) && s.record.resulting == InFlight
    ensures var w := AfterDispatchCall(v, a, s, x, e, candidate, tick);
            PermitStands(w, Permit(v.runId, a, x, |v.events| + 1, |w.events|))
  {
    hide TakeStep, ValidEvidenceId, ValidAttemptId, TransitionFacts;
    DispatchFacts(v.ops[a], s, x, e, candidate);
    RecordKeepsInputs(v.ops[a].machine, InFlight, e, candidate, Some(x));
    FactsReadBack(s.record, e);
    DispatchNotPrepared(s.record);
    var w := AfterDispatchCall(v, a, s, x, e, candidate, tick);
    assert |w.events| == |v.events| + 2;
    assert EventAt(w.events, |v.events| + 1) == Some(w.events[|v.events|]);
  }

  lemma GrowsTransitive(u: Live, v: Live, w: Live)
    requires Grows(u, v) && Grows(v, w)
    ensures Grows(u, w)
  {
  }

  /** A run split at any point is a run of its first part continued. */
  lemma {:induction false} RunGrows(v: Live, calls: seq<Call>, n: nat)
    requires Inv(v) && n <= |calls|
    ensures Grows(LiveRun(v, calls[..n]).0, LiveRun(v, calls).0)
    ensures LiveRun(v, calls).1[..n] == LiveRun(v, calls[..n]).1
    decreases |calls|
  {
    hide Inv, LiveStep, Grows, OrderInv, LiveRun;
    if n == |calls| {
      assert calls[..n] == calls;
      GrowsSelf(LiveRun(v, calls).0);
    } else {
      var k := |calls| - 1;
      RunGrows(v, calls[..k], n);
      assert calls[..k][..n] == calls[..n];
      LastOfRun(v, calls);
      var before := LiveRun(v, calls[..k]).0;
      CallGrows(before, calls[k]);
      GrowsTransitive(LiveRun(v, calls[..n]).0, before, LiveRun(v, calls).0);
    }
  }

  /** The call at position `i` of a run, seen in the states around it. */
  lemma CallInRun(v: Live, calls: seq<Call>, i: nat)
    requires Inv(v) && i < |calls|
    ensures var before, after := LiveRun(v, calls[..i]).0, LiveRun(v, calls[..i + 1]).0;
            var outcome := LiveRun(v, calls).1[i];
            && Grows(before, after)
            && (outcome.Permitted? ==>
                outcome.permit.attemptId !in before.attempts && PermitStands(after, outcome.permit))
  {
    hide Inv, LiveStep, Grows, OrderInv, PermitStands, LiveRun;
    RunGrows(v, calls, i + 1);
    assert calls[..i + 1][..i] == calls[..i];
    LastOfRun(v, calls[..i + 1]);
    CallGrows(LiveRun(v, calls[..i]).0, calls[i]);
    assert LiveRun(v, calls).1[i] == LiveRun(v, calls).1[..i + 1][i];
  }

  lemma LivePermits(v: Live, calls: seq<Call>, i: nat, j: nat)
    requires Inv(v) && i < j < |calls| && LiveRun(v, calls).1[i].Permitted? && LiveRun(v, calls).1[j].Permitted?
    ensures LiveRun(v, calls).1[i].permit.attemptId != LiveRun(v, calls).1[j].permit.attemptId
  {
    hide Inv, PermitStands, Grows, LiveRun;
    CallInRun(v, calls, i);
    CallInRun(v, calls, j);
    RunGrows(v, calls[..j], i + 1);
    assert calls[..j][..i + 1] == calls[..i + 1];
    PermitPersists(LiveRun(v, calls[..i + 1]).0, LiveRun(v, calls[..j]).0, LiveRun(v, calls).1[i].permit);
    PermitIssued(LiveRun(v, calls[..j]).0, LiveRun(v, calls).1[i].permit);
  }

  lemma LivePermitStands(v: Live, calls: seq<Call>, i: nat)
    requires Inv(v) && i < |calls| && LiveRun(v, calls).1[i].Permitted?
    ensures PermitStands(LiveRun(v, calls).0, LiveRun(v, calls).1[i].permit)
  {
    hide Inv, PermitStands, Grows, LiveRun;
    CallInRun(v, calls, i);
    RunGrows(v, calls, i + 1);
    PermitPersists(LiveRun(v, calls[..i + 1]).0, LiveRun(v, calls).0, LiveRun(v, calls).1[i].permit);
  }

  /** No attempt id is ever permitted twice, across all actions, failures and reopenings. */
  lemma PermitsDistinct(runId: string, calls: seq<Call>, i: nat, j: nat)
    requires i < j < |calls|
    requires var outcomes := Run(Create(runId), calls).1;
             |outcomes| == |calls| && outcomes[i].Permitted? && outcomes[j].Permitted?
    ensures var outcomes := Run(Create(runId), calls).1;
            outcomes[i].permit.attemptId != outcomes[j].permit.attemptId
  {
    ReplayRefinesLive(runId, calls);
    hide Inv, Run, LiveRun, Empty, Create;
    LivePermits(Empty(runId), calls, i, j);
  }

  /** A permit in the stored log: a dispatch event and, right after it at the same tick,
      the transition into IN_FLIGHT, both under the action's registered identity. */
  predicate PermitStored(t: Tables, p: Permit) {
    var row := FindOperation(t.operations, p.actionId);
    && row.Some? && EventsOf(t).Ok?
    && var events := EventsOf(t).value;
    && IsDispatch(EventAt(events, p.dispatchSeq), row.value.identity, p.attemptId)
    && IsTransition(EventAt(events, p.transitionSeq), row.value.identity, Some(p.attemptId))
    && p.transitionSeq == p.dispatchSeq + 1
    && EventAt(events, p.transitionSeq).value.tick == EventAt(events, p.dispatchSeq).value.tick
    && RecordOfFacts(EventAt(events, p.transitionSeq).value.evidence).resulting == InFlight
  }

  lemma StandsStored(t: Tables, v: Live, p: Permit)
    requires Rep(t, v) && Inv(v) && OrderInv(v) && PermitStands(v, p)
    ensures PermitStored(t, p)
  {
    InvNamesActions(v);
    assert RepOperations(t, v.order, v.ops);
    hide Inv, Rep, EventsOf, NextSeq, RecordOfFacts, EventAt, OrderInv, RepOperations, FindOperation, IsDispatch,
         IsTransition;
    LogRead(t, v);
    OperationRead(t, v, p.actionId);
  }

  /** Append before dispatch: every permit a run has handed out is backed by its two
      adjacent events in the tables at the end of the run, whatever calls came after. */
  lemma PermitsAreStored(runId: string, calls: seq<Call>, i: nat)
    requires i < |calls| == |Run(Create(runId), calls).1| && Run(Create(runId), calls).1[i].Permitted?
    ensures PermitStored(Run(Create(runId), calls).0.tables, Run(Create(runId), calls).1[i].permit)
  {
    var v := Reached(runId, calls);
    ReplayRefinesLive(runId, calls);
    hide Inv, Rep, Run, LiveRun, Empty, Create, OrderInv, PermitStands, PermitStored;
    LivePermitStands(Empty(runId), calls, i);
    StandsStored(Run(Create(runId), calls).0.tables, v, Run(Create(runId), calls).1[i].permit);
  }

  lemma PermitIssued(v: Live, p: Permit)
    requires PermitStands(v, p)
    ensures p.attemptId in v.attempts
  {
    hide RecordOfFacts;
  }
}
