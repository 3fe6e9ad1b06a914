/** The simple ledger the stored one stands for: one event list, one live state machine
    per action with the history that led to it, and one set of attempt ids. */
module LiveLedger {
  import opened Wrappers
  import opened CanonicalJson
  import opened StateMachine
  import opened Histories
  import opened Contracts
  import opened LedgerTables
  import opened LedgerCalls
  import opened LedgerChecker
  import opened LedgerProtocol

  datatype LiveOp = LiveOp(machine: Machine, createdSeq: int, log: seq<Entry>)

  datatype Live = Live(
    runId: string,
    closed: bool,
    events: seq<Event>,
    order: seq<string>,
    ops: map<string, LiveOp>,
    attempts: set<string>)

  function Empty(runId: string): Live {
    Live(runId, false, [], [], map[], {})
  }

  function LastTick(events: seq<Event>): int {
    if |events| == 0 then 0 else events[|events| - 1].tick
  }

  function Lifecycle(
    events: seq<Event>, tick: nat, kind: EventKind, id: Identity, attemptId: Option<string>, facts: map<string, Json>)
    : Event
  {
    Event(|events| + 1, tick, kind, IdentityLinks(id, attemptId), facts)
  }

  function PersistedOf(e: Entry): Persisted {
    Persisted(e.record, e.evidence, e.eventSeq)
  }

  function PersistedOfLog(log: seq<Entry>): seq<Persisted> {
    seq(|log|, i requires 0 <= i < |log| => PersistedOf(log[i]))
  }

  function UpdatedSeq(op: LiveOp): int {
    if |op.log| == 0 then op.createdSeq else op.log[|op.log| - 1].eventSeq
  }

  function SnapshotOfLive(op: LiveOp): Snapshot {
    Snapshot(op.machine.identity, op.machine.state, op.createdSeq, UpdatedSeq(op), op.machine.attemptIds,
             PersistedOfLog(op.log))
  }

  function LiveSnapshots(order: seq<string>, ops: map<string, LiveOp>): seq<Snapshot>
    requires forall i | 0 <= i < |order| :: order[i] in ops
  {
    seq(|order|, i requires 0 <= i < |order| => SnapshotOfLive(ops[order[i]]))
  }

  /** The events one step writes: a prepared event first when it enters PREPARED. */
  function StepEvents(events: seq<Event>, id: Identity, r: Record, e: Evidence, tick: nat): seq<Event> {
    var before :=
      if SuccessfullyPrepared(r) then events + [Lifecycle(events, tick, OperationPrepared, id, None, map[])]
      else events;
    before + [Lifecycle(before, tick, StateTransition, id, r.attemptId, TransitionFacts(r, e))]
  }

  /** The step a machine took becomes two facts at once: its events and its entry. */
  function CommitStep(v: Live, a: string, s: Step, e: Evidence, candidate: Identity, tick: nat): Live
    requires a in v.ops
  {
    var op := v.ops[a];
    var events := StepEvents(v.events, op.machine.identity, s.record, e, tick);
    v.(events := events,
       ops := v.ops[a := LiveOp(s.machine, op.createdSeq, op.log + [Entry(s.record, e, candidate, |events|)])])
  }

  function LiveAppend(v: Live, e: Event): (Live, Outcome) {
    if !ValidEvent(e) then (v, Refused(InvalidArgument))
    else if Managed(e.kind) then (v, Refused(ManagedEvent))
    else if e.seqNo != |v.events| + 1 || e.tick < LastTick(v.events) then (v, Refused(EventSequence))
    else (v.(events := v.events + [e]), Appended(e))
  }

  function LiveRegister(v: Live, id: Identity, tick: nat): (Live, Outcome) {
    if id.actionId in v.ops then (v, Refused(DuplicateOperation))
    else if tick < LastTick(v.events) then (v, Refused(EventSequence))
    else
      var op := LiveOp(Fresh(id), |v.events| + 1, []);
      (v.(events := v.events + [Lifecycle(v.events, tick, ActionProposed, id, None, map[])],
          order := v.order + [id.actionId],
          ops := v.ops[id.actionId := op]),
       Registered(SnapshotOfLive(op)))
  }

  function LiveTransition(v: Live, a: string, target: State, e: Evidence, candidate: Identity, tick: nat)
    : (Live, Outcome)
  {
    if !ValidEvidenceId(e.evidenceId) then (v, Refused(InvalidArgument))
    else if target == InFlight then (v, Refused(DispatchRequired))
    else if a !in v.ops then (v, Refused(OperationNotFound))
    else
      var m := v.ops[a].machine;
      var s := TakeStep(m, target, e, candidate, None);
      if m.state == Violation then (v, Refused(InvalidTransition(s.record)))
      else if tick < LastTick(v.events) then (v, Refused(EventSequence))
      else
        var after := CommitStep(v, a, s, e, candidate, tick);
        (after, if s.raised then Refused(InvalidTransition(s.record))
         else Moved(Persisted(s.record, e, |after.events|)))
  }

  function LiveDispatch(v: Live, a: string, attemptId: string, e: Evidence, candidate: Identity, tick: nat)
    : (Live, Outcome)
  {
    if !ValidAttemptId(attemptId) || !ValidEvidenceId(e.evidenceId) then (v, Refused(InvalidArgument))
    else if a !in v.ops then (v, Refused(OperationNotFound))
    else
      var m := v.ops[a].machine;
      var s := TakeStep(m, InFlight, e, candidate, Some(attemptId));
      if m.state == Violation then (v, Refused(InvalidTransition(s.record)))
      else if tick < LastTick(v.events) then (v, Refused(EventSequence))
      else if s.raised then (CommitStep(v, a, s, e, candidate, tick), Refused(InvalidTransition(s.record)))
      else if attemptId in v.attempts then (v, Refused(Integrity))
      else
        var dispatched := v.events + [Lifecycle(v.events, tick, AttemptDispatched, m.identity, Some(attemptId), map[])];
        var after := CommitStep(v.(events := dispatched, attempts := v.attempts + {attemptId}), a, s, e,
                                candidate, tick);
        (after, Permitted(Permit(v.runId, a, attemptId, |dispatched|, |after.events|)))
  }

  function LiveStep(v: Live, c: Call): (Live, Outcome)
    requires forall i | 0 <= i < |v.order| :: v.order[i] in v.ops
  {
    if c.ReopenCall? then
      if c.runId == v.runId then (v.(closed := false), Done) else (v.(closed := true), Refused(Integrity))
    else if c.CloseCall? then (v.(closed := true), Done)
    else if v.closed then (v, Refused(ClosedLedger))
    else
      match c
      case AppendCall(e) => LiveAppend(v, e)
      case RegisterCall(id, tick) => LiveRegister(v, id, tick)
      case TransitionCall(a, target, e, candidate, tick) => LiveTransition(v, a, target, e, candidate, tick)
      case DispatchCall(a, attemptId, e, candidate, tick) => LiveDispatch(v, a, attemptId, e, candidate, tick)
      case NextSeqCall => (v, Sequence(|v.events| + 1))
      case EventsCall => (v, Log(v.events))
      case OperationCall(a) =>
        (v, if a in v.ops then Operation(SnapshotOfLive(v.ops[a])) else Refused(OperationNotFound))
      case OperationsCall => (v, Operations(LiveSnapshots(v.order, v.ops)))
      case _ => (v, Done)
  }

  // ---------- What every reachable live ledger satisfies ----------

  predicate LogInv(events: seq<Event>) {
    && Contiguous(events)
    && TicksOrdered(events)
    && forall i | 0 <= i < |events| :: ValidEvent(events[i])
  }

  /** The entry's events are in the log: its transition event, and right before it the
      prepared or dispatch event that belongs to it, at the same tick. */
  predicate Linked(events: seq<Event>, id: Identity, e: Entry) {
    var ev := EventAt(events, e.eventSeq);
    && ev.Some? && ev.value.kind == StateTransition
    && ev.value.links == IdentityLinks(id, e.record.attemptId)
    && ev.value.evidence == TransitionFacts(e.record, e.evidence)
    && (SuccessfullyPrepared(e.record) ==> IsPreparation(EventAt(events, e.eventSeq - 1), id, ev.value.tick))
    && (e.record.resulting == InFlight ==>
          && e.record.attemptId.Some?
          && IsDispatch(EventAt(events, e.eventSeq - 1), id, e.record.attemptId.value)
          && EventAt(events, e.eventSeq - 1).value.tick == ev.value.tick)
  }

  /** The sequence number an entry must come after. */
  function SeqBefore(op: LiveOp, j: nat): int
    requires j <= |op.log|
  {
    if j == 0 then op.createdSeq else op.log[j - 1].eventSeq
  }

  predicate OpInv(events: seq<Event>, a: string, op: LiveOp) {
    && op.machine.identity.actionId == a
    && Legal(op.machine.identity, op.log)
    && op.machine == After(op.machine.identity, op.log)
    && IsProposal(EventAt(events, op.createdSeq), op.machine.identity)
    && (forall j | 0 <= j < |op.log| :: Linked(events, op.machine.identity, op.log[j]))
    && (forall j | 0 <= j < |op.log| :: SeqBefore(op, j) < op.log[j].eventSeq)
  }

  predicate HasPartner(r: Record) {
    SuccessfullyPrepared(r) || r.resulting == InFlight
  }

  predicate Owns(op: LiveOp, n: int) {
    || n == op.createdSeq
    || exists j :: 0 <= j < |op.log| && OwnsAt(op.log[j], n)
  }

  predicate OwnsAt(e: Entry, n: int) {
    n == e.eventSeq || (HasPartner(e.record) && n == e.eventSeq - 1)
  }

  predicate Owned(ops: map<string, LiveOp>, n: int) {
    exists a :: a in ops && Owns(ops[a], n)
  }

  predicate Ordered(order: seq<string>, ops: map<string, LiveOp>) {
    && (forall i | 0 <= i < |order| :: order[i] in ops)
    && (forall i, j | 0 <= i < j < |order| :: order[i] != order[j])
    && (forall a | a in ops :: a in order)
    && (forall i | 0 < i < |order| :: ops[order[i - 1]].createdSeq < ops[order[i]].createdSeq)
  }

  /** Actions are listed once each, in the order of their proposals. */
  predicate OrderInv(v: Live) {
    Ordered(v.order, v.ops)
  }

  predicate AttemptsInv(v: Live) {
    && (forall a, x | a in v.ops && x in v.ops[a].machine.attemptIds :: x in v.attempts)
    && (forall x | x in v.attempts :: exists a :: a in v.ops && x in v.ops[a].machine.attemptIds)
    && (forall a, b, x | a in v.ops && b in v.ops
                         && x in v.ops[a].machine.attemptIds && x in v.ops[b].machine.attemptIds :: a == b)
  }

  ghost predicate Inv(v: Live) {
    && LogInv(v.events)
    && OrderInv(v)
    && (forall a | a in v.ops :: OpInv(v.events, a, v.ops[a]))
    && AttemptsInv(v)
    && (forall i | 0 <= i < |v.events| :: Managed(v.events[i].kind) ==> Owned(v.ops, i + 1))
  }

  // ---------- Growth of the log ----------

  lemma LogGrows(events: seq<Event>, e: Event)
    requires LogInv(events) && ValidEvent(e)
    requires e.seqNo == |events| + 1 && e.tick >= LastTick(events)
    ensures LogInv(events + [e])
  {
  }

  lemma LinkedGrows(events: seq<Event>, more: seq<Event>, id: Identity, e: Entry)
    requires Linked(events, id, e) && events <= more
    ensures Linked(more, id, e)
  {
    hide TransitionFacts;
    assert forall n | 1 <= n <= |events| :: EventAt(more, n) == EventAt(events, n);
  }

  lemma OpGrows(events: seq<Event>, more: seq<Event>, a: string, op: LiveOp)
    requires OpInv(events, a, op) && events <= more
    ensures OpInv(more, a, op)
  {
    hide Linked, Legal, After;
    assert EventAt(more, op.createdSeq) == EventAt(events, op.createdSeq);
    forall j | 0 <= j < |op.log| ensures Linked(more, op.machine.identity, op.log[j]) {
      LinkedGrows(events, more, op.machine.identity, op.log[j]);
    }
  }
}
