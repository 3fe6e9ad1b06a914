/** Every call keeps the live ledger's invariant. */
module LiveInvariant {
  import opened Wrappers
  import opened CanonicalJson
  import opened StateMachine
  import opened Histories
  import opened Contracts
  import opened LedgerCalls
  import opened LedgerChecker
  import opened LedgerProtocol
  import opened LiveLedger

  lemma LifecycleGrows(
    events: seq<Event>, tick: nat, kind: EventKind, id: Identity, attemptId: Option<string>, facts: map<string, Json>)
    requires LogInv(events) && tick >= LastTick(events) && ValidEvidenceMap(facts)
    ensures LogInv(events + [Lifecycle(events, tick, kind, id, attemptId, facts)])
  {
    LogGrows(events, Lifecycle(events, tick, kind, id, attemptId, facts));
  }

  /** The events of one step end in its transition event, with the prepared event right
      before it when the step entered PREPARED. */
  lemma StepEventsShape(events: seq<Event>, id: Identity, r: Record, e: Evidence, tick: nat)
    requires LogInv(events) && tick >= LastTick(events) && ValidEvidenceMap(TransitionFacts(r, e))
    ensures var more := StepEvents(events, id, r, e, tick);
            && LogInv(more) && events <= more
            && |more| == |events| + (if SuccessfullyPrepared(r) then 2 else 1)
            && more[|more| - 1]
                 == Event(|more|, tick, StateTransition, IdentityLinks(id, r.attemptId), TransitionFacts(r, e))
            && (SuccessfullyPrepared(r) ==> IsPreparation(EventAt(more, |more| - 1), id, tick))
  {
    hide TransitionFacts, ValidParameterName, UrlFree;
    if SuccessfullyPrepared(r) {
      LifecycleGrows(events, tick, OperationPrepared, id, None, map[]);
      var before := events + [Lifecycle(events, tick, OperationPrepared, id, None, map[])];
      LifecycleGrows(before, tick, StateTransition, id, r.attemptId, TransitionFacts(r, e));
    } else {
      LifecycleGrows(events, tick, StateTransition, id, r.attemptId, TransitionFacts(r, e));
    }
  }

  /** A step of the machine, as a ledger call makes it. */
  predicate StepOf(op: LiveOp, s: Step, target: State, e: Evidence, candidate: Identity, attemptId: Option<string>) {
    && op.machine.state != Violation
    && ValidEvidenceId(e.evidenceId)
    && (attemptId.Some? ==> ValidAttemptId(attemptId.value))
    && s == TakeStep(op.machine, target, e, candidate, attemptId)
  }

  function NextOp(op: LiveOp, s: Step, e: Evidence, candidate: Identity, eventSeq: int): LiveOp {
    LiveOp(s.machine, op.createdSeq, op.log + [Entry(s.record, e, candidate, eventSeq)])
  }

  /** The entry a step appends replays to that step. */
  lemma StepFits(
    op: LiveOp, s: Step, target: State, e: Evidence, candidate: Identity, attemptId: Option<string>, n: int)
    requires StepOf(op, s, target, e, candidate, attemptId)
    ensures Fits(op.machine, Entry(s.record, e, candidate, n))
    ensures Replayed(op.machine, Entry(s.record, e, candidate, n)) == s
  {
    hide TakeStep, ValidAttemptId, ValidEvidenceId;
    RecordKeepsInputs(op.machine, target, e, candidate, attemptId);
  }

  lemma CreatedInLog(events: seq<Event>, a: string, op: LiveOp)
    requires OpInv(events, a, op)
    ensures 1 <= op.createdSeq <= |events|
  {
    hide Legal, After, Linked;
  }

  lemma LegalExtends(id: Identity, log: seq<Entry>, e: Entry)
    requires Legal(id, log) && Fits(After(id, log), e)
    ensures Legal(id, log + [e]) && After(id, log + [e]) == Replayed(After(id, log), e).machine
  {
    hide Fits, Replayed;
    assert (log + [e])[..|log|] == log;
  }

  lemma LastSeqInLog(events: seq<Event>, a: string, op: LiveOp)
    requires OpInv(events, a, op)
    ensures 1 <= SeqBefore(op, |op.log|) <= |events|
  {
    hide Legal, After, TransitionFacts;
    if |op.log| > 0 {
      assert Linked(events, op.machine.identity, op.log[|op.log| - 1]);
    }
  }

  /** The new entry's events stand in the log after the step. */
  lemma NewEntryLinked(
    mid: seq<Event>, id: Identity, s: Step, e: Evidence, candidate: Identity, attemptId: Option<string>, tick: nat)
    requires LogInv(mid) && tick >= LastTick(mid) && ValidEvidenceMap(TransitionFacts(s.record, e))
    requires s.record.resulting == InFlight ==>
               && attemptId.Some? && s.record.attemptId == attemptId && |mid| > 0 && mid[|mid| - 1].tick == tick
               && IsDispatch(EventAt(mid, |mid|), id, attemptId.value)
    ensures var more := StepEvents(mid, id, s.record, e, tick);
            LogInv(more) && mid <= more && |more| > |mid| && Linked(more, id, Entry(s.record, e, candidate, |more|))
  {
    hide TransitionFacts, ValidEvidenceMap, LogInv, StepEvents;
    StepEventsShape(mid, id, s.record, e, tick);
    var more := StepEvents(mid, id, s.record, e, tick);
    assert EventAt(more, |more|) == Some(more[|more| - 1]);
    if s.record.resulting == InFlight {
      assert EventAt(more, |mid|) == EventAt(mid, |mid|);
    }
  }

  /** One more fitting, linked entry keeps an operation's invariant in a longer log. */
  lemma OpExtends(events: seq<Event>, more: seq<Event>, a: string, op: LiveOp, last: Entry)
    requires OpInv(events, a, op) && events <= more && Fits(op.machine, last) && last.eventSeq > |events|
    requires Linked(more, op.machine.identity, last)
    ensures OpInv(more, a, LiveOp(Replayed(op.machine, last).machine, op.createdSeq, op.log + [last]))
  {
    hide Linked, Fits, Replayed, Legal, After, IsProposal;
    var id := op.machine.identity;
    var next := LiveOp(Replayed(op.machine, last).machine, op.createdSeq, op.log + [last]);
    FittingEntry(op.machine, last);
    LegalExtends(id, op.log, last);
    LastSeqInLog(events, a, op);
    forall j | 0 <= j < |next.log| ensures Linked(more, id, next.log[j]) && SeqBefore(next, j) < next.log[j].eventSeq {
      if j < |op.log| {
        LinkedGrows(events, more, id, op.log[j]);
        assert SeqBefore(next, j) == SeqBefore(op, j);
      } else {
        assert SeqBefore(next, j) == SeqBefore(op, |op.log|);
      }
    }
    CreatedInLog(events, a, op);
    assert EventAt(more, op.createdSeq) == EventAt(events, op.createdSeq);
  }

  lemma OpCommit(
    events: seq<Event>, mid: seq<Event>, a: string, op: LiveOp, s: Step,
    target: State, e: Evidence, candidate: Identity, attemptId: Option<string>, tick: nat)
    requires OpInv(events, a, op) && LogInv(mid) && events <= mid && tick >= LastTick(mid)
    requires StepOf(op, s, target, e, candidate, attemptId)
    requires s.record.resulting == InFlight ==>
               && attemptId.Some? && |mid| > |events| && mid[|mid| - 1].tick == tick
               && IsDispatch(EventAt(mid, |mid|), op.machine.identity, attemptId.value)
    ensures var more := StepEvents(mid, op.machine.identity, s.record, e, tick);
            LogInv(more) && OpInv(more, a, NextOp(op, s, e, candidate, |more|))
  {
    hide TransitionFacts, TakeStep, ValidAttemptId, ValidEvidenceId, ValidEvidenceMap, Fits, Replayed, LogInv,
         OpInv, Linked, StepEvents, IsDispatch, EventAt;
    var id := op.machine.identity;
    var more := StepEvents(mid, id, s.record, e, tick);
    FactsValid(op.machine, target, e, candidate, attemptId);
    RecordKeepsInputs(op.machine, target, e, candidate, attemptId);
    NewEntryLinked(mid, id, s, e, candidate, attemptId, tick);
    StepFits(op, s, target, e, candidate, attemptId, |more|);
    OpExtends(events, more, a, op, Entry(s.record, e, candidate, |more|));
  }

  lemma OwnsGrows(op: LiveOp, s: Step, e: Evidence, candidate: Identity, eventSeq: int, n: int)
    ensures Owns(op, n) ==> Owns(NextOp(op, s, e, candidate, eventSeq), n)
    ensures OwnsAt(Entry(s.record, e, candidate, eventSeq), n) ==> Owns(NextOp(op, s, e, candidate, eventSeq), n)
  {
    var next := NextOp(op, s, e, candidate, eventSeq);
    if j :| 0 <= j < |op.log| && OwnsAt(op.log[j], n) {
      assert next.log[j] == op.log[j];
    }
    assert next.log[|op.log|] == Entry(s.record, e, candidate, eventSeq);
  }

  /** Committing a step keeps the whole invariant. `mid` is the log the step's own events
      follow: the log itself, or the log with the dispatch event just appended. */
  lemma CommitKeepsInv(
    v: Live, mid: seq<Event>, a: string, s: Step,
    target: State, e: Evidence, candidate: Identity, attemptId: Option<string>, tick: nat)
    requires Inv(v) && a in v.ops && LogInv(mid) && tick >= LastTick(mid)
    requires StepOf(v.ops[a], s, target, e, candidate, attemptId)
    requires if s.record.resulting == InFlight
             then && attemptId.Some? && |mid| == |v.events| + 1 && v.events == mid[..|v.events|]
                  && mid[|mid| - 1].tick == tick && attemptId.value !in v.attempts
                  && IsDispatch(EventAt(mid, |mid|), v.ops[a].machine.identity, attemptId.value)
             else mid == v.events
    ensures var attempts := if s.record.resulting == InFlight then v.attempts + {attemptId.value} else v.attempts;
            Inv(CommitStep(v.(events := mid, attempts := attempts), a, s, e, candidate, tick))
  {
    hide TransitionFacts, TakeStep, ValidAttemptId, ValidEvidenceId, ValidEvidenceMap, LogInv, OpInv, Owned, IsDispatch,
         Ordered, AttemptsInv, StepEvents;
    var op := v.ops[a];
    var more := StepEvents(mid, op.machine.identity, s.record, e, tick);
    var attempts := if s.record.resulting == InFlight then v.attempts + {attemptId.value} else v.attempts;
    var after := CommitStep(v.(events := mid, attempts := attempts), a, s, e, candidate, tick);
    var next := NextOp(op, s, e, candidate, |more|);
    assert after.ops == v.ops[a := next];
    OpCommit(v.events, mid, a, op, s, target, e, candidate, attemptId, tick);
    StepExtends(mid, op.machine.identity, s.record, e, tick);
    forall b | b in after.ops ensures OpInv(more, b, after.ops[b]) {
      if b != a { OpGrows(v.events, more, b, v.ops[b]); }
    }
    OrderKept(v.order, v.ops, a, next);
    CommitOwnership(v, mid, a, s, e, candidate, tick);
    assert after == CommitStep(v.(events := mid), a, s, e, candidate, tick).(attempts := attempts);
    CommitAttempts(v, mid, a, s, target, e, candidate, attemptId, tick);
  }

  /** A step changes neither the listing of the actions nor when they were proposed. */
  lemma OrderKept(order: seq<string>, ops: map<string, LiveOp>, a: string, op: LiveOp)
    requires Ordered(order, ops) && a in ops && op.createdSeq == ops[a].createdSeq
    ensures Ordered(order, ops[a := op])
  {
  }

  lemma StepExtends(events: seq<Event>, id: Identity, r: Record, e: Evidence, tick: nat)
    ensures events <= StepEvents(events, id, r, e, tick)
    ensures |StepEvents(events, id, r, e, tick)| == |events| + (if SuccessfullyPrepared(r) then 2 else 1)
  {
    hide TransitionFacts;
  }

  lemma CommitOwnership(v: Live, mid: seq<Event>, a: string, s: Step, e: Evidence, candidate: Identity, tick: nat)
    requires a in v.ops
             && (mid == v.events || (s.record.resulting == InFlight && |mid| == |v.events| + 1 && v.events <= mid))
    requires forall i | 0 <= i < |v.events| :: Managed(v.events[i].kind) ==> Owned(v.ops, i + 1)
    ensures var after := CommitStep(v.(events := mid), a, s, e, candidate, tick);
            forall i | 0 <= i < |after.events| :: Managed(after.events[i].kind) ==> Owned(after.ops, i + 1)
  {
    hide TransitionFacts, Owns, Managed;
    var op := v.ops[a];
    var more := StepEvents(mid, op.machine.identity, s.record, e, tick);
    StepExtends(mid, op.machine.identity, s.record, e, tick);
    var after := CommitStep(v.(events := mid), a, s, e, candidate, tick);
    var next := NextOp(op, s, e, candidate, |more|);
    assert after.ops[a] == next;
    forall i | 0 <= i < |more| && Managed(more[i].kind) ensures Owned(after.ops, i + 1) {
      OwnsGrows(op, s, e, candidate, |more|, i + 1);
      if i < |v.events| {
        assert more[i] == v.events[i];
        var b :| b in v.ops && Owns(v.ops[b], i + 1);
        assert Owns(after.ops[b], i + 1);
      } else {
        assert OwnsAt(Entry(s.record, e, candidate, |more|), i + 1);
        assert Owns(after.ops[a], i + 1);
      }
    }
  }

  lemma CommitAttempts(
    v: Live, mid: seq<Event>, a: string, s: Step,
    target: State, e: Evidence, candidate: Identity, attemptId: Option<string>, tick: nat)
    requires AttemptsInv(v) && a in v.ops && StepOf(v.ops[a], s, target, e, candidate, attemptId)
    requires s.record.resulting == InFlight ==> attemptId.Some? && attemptId.value !in v.attempts
    ensures var attempts := if s.record.resulting == InFlight then v.attempts + {attemptId.value} else v.attempts;
            AttemptsInv(CommitStep(v.(events := mid, attempts := attempts), a, s, e, candidate, tick))
  {
    hide TransitionFacts, TakeStep, ValidAttemptId, ValidEvidenceId, StepEvents;
    StepFits(v.ops[a], s, target, e, candidate, attemptId, 0);
    FittingEntry(v.ops[a].machine, Entry(s.record, e, candidate, 0));
    RecordKeepsInputs(v.ops[a].machine, target, e, candidate, attemptId);
    var attempts := if s.record.resulting == InFlight then v.attempts + {attemptId.value} else v.attempts;
    var after := CommitStep(v.(events := mid, attempts := attempts), a, s, e, candidate, tick);
    forall x | x in after.attempts ensures exists b :: b in after.ops && x in after.ops[b].machine.attemptIds {
      if x in v.attempts {
        var b :| b in v.ops && x in v.ops[b].machine.attemptIds;
        assert x in after.ops[b].machine.attemptIds;
      } else {
        assert x in after.ops[a].machine.attemptIds;
      }
    }
  }

  lemma AppendKeepsInv(v: Live, e: Event)
    requires Inv(v)
    ensures Inv(LiveAppend(v, e).0)
  {
    hide OpInv, ValidEvidenceMap;
    var after := LiveAppend(v, e).0;
    if after != v {
      LogGrows(v.events, e);
      forall a | a in v.ops ensures OpInv(after.events, a, v.ops[a]) {
        OpGrows(v.events, after.events, a, v.ops[a]);
      }
    }
  }

  lemma RegisterKeepsInv(v: Live, id: Identity, tick: nat)
    requires Inv(v)
    ensures Inv(LiveRegister(v, id, tick).0)
  {
    hide OpInv, LogInv, ValidEvidenceMap, Ordered, AttemptsInv, Owned, Lifecycle;
    var after := LiveRegister(v, id, tick).0;
    if after != v {
      var a := id.actionId;
      assert ValidEvidenceMap(map[]) by { NoEvidenceValid(); }
      LifecycleGrows(v.events, tick, ActionProposed, id, None, map[]);
      forall b | b in after.ops ensures OpInv(after.events, b, after.ops[b]) {
        if b == a { NewOp(v.events, id, tick); } else { OpGrows(v.events, after.events, b, v.ops[b]); }
      }
      RegisterOwnership(v, id, tick);
      RegisterOrder(v, id, tick);
      RegisterAttempts(v, id, tick);
    }
  }

  lemma NoEvidenceValid()
    ensures ValidEvidenceMap(map[])
  {
  }

  lemma RegisterOwnership(v: Live, id: Identity, tick: nat)
    requires id.actionId !in v.ops && tick >= LastTick(v.events)
    requires forall i | 0 <= i < |v.events| :: Managed(v.events[i].kind) ==> Owned(v.ops, i + 1)
    ensures var after := LiveRegister(v, id, tick).0;
            forall i | 0 <= i < |after.events| :: Managed(after.events[i].kind) ==> Owned(after.ops, i + 1)
  {
    hide Owns, Managed, Lifecycle;
    var after := LiveRegister(v, id, tick).0;
    forall i | 0 <= i < |after.events| && Managed(after.events[i].kind) ensures Owned(after.ops, i + 1) {
      if i < |v.events| {
        assert after.events[i] == v.events[i];
        var b :| b in v.ops && Owns(v.ops[b], i + 1);
        assert Owns(after.ops[b], i + 1);
      } else {
        OwnsCreated(after.ops[id.actionId]);
      }
    }
  }

  lemma RegisterAttempts(v: Live, id: Identity, tick: nat)
    requires AttemptsInv(v) && id.actionId !in v.ops
    ensures AttemptsInv(LiveRegister(v, id, tick).0)
  {
    hide Lifecycle;
    var after := LiveRegister(v, id, tick).0;
    forall x | x in after.attempts ensures exists b :: b in after.ops && x in after.ops[b].machine.attemptIds {
      var b :| b in v.ops && x in v.ops[b].machine.attemptIds;
      assert x in after.ops[b].machine.attemptIds;
    }
  }

  lemma OwnsCreated(op: LiveOp)
    ensures Owns(op, op.createdSeq)
  {
  }

  lemma NewOp(events: seq<Event>, id: Identity, tick: nat)
    ensures OpInv(events + [Lifecycle(events, tick, ActionProposed, id, None, map[])], id.actionId,
                  LiveOp(Fresh(id), |events| + 1, []))
  {
  }

  lemma OrderExtends(order: seq<string>, ops: map<string, LiveOp>, a: string, op: LiveOp)
    requires Ordered(order, ops) && a !in ops
    requires |order| > 0 ==> ops[order[|order| - 1]].createdSeq < op.createdSeq
    ensures Ordered(order + [a], ops[a := op])
  {
    assert forall b :: b in order + [a] <==> b in order || b == a;
  }

  lemma RegisterOrder(v: Live, id: Identity, tick: nat)
    requires OrderInv(v) && id.actionId !in v.ops
    requires forall a | a in v.ops :: OpInv(v.events, a, v.ops[a])
    ensures OrderInv(LiveRegister(v, id, tick).0)
  {
    hide OpInv, Lifecycle;
    if |v.order| > 0 {
      var b := v.order[|v.order| - 1];
      CreatedInLog(v.events, b, v.ops[b]);
    }
    hide Ordered;
    OrderExtends(v.order, v.ops, id.actionId, LiveOp(Fresh(id), |v.events| + 1, []));
  }

  lemma TransitionKeepsInv(v: Live, a: string, target: State, e: Evidence, candidate: Identity, tick: nat)
    requires Inv(v)
    ensures Inv(LiveTransition(v, a, target, e, candidate, tick).0)
  {
    hide TransitionFacts, TakeStep, ValidEvidenceId, Inv, StepEvents;
    var after := LiveTransition(v, a, target, e, candidate, tick).0;
    if after != v {
      var s := TakeStep(v.ops[a].machine, target, e, candidate, None);
      StaysOut(v.ops[a].machine, target, e, candidate);
      assert LogInv(v.events) by { LogOfInv(v); }
      CommitKeepsInv(v, v.events, a, s, target, e, candidate, None, tick);
    }
  }

  lemma LogOfInv(v: Live)
    requires Inv(v)
    ensures LogInv(v.events)
    ensures OrderInv(v)
  {
  }

  lemma StaysOut(m: Machine, target: State, e: Evidence, candidate: Identity)
    requires target != InFlight
    ensures TakeStep(m, target, e, candidate, None).record.resulting != InFlight
  {
    hide TakeStep;
    SucceedsExactly(m, target, e, candidate, None);
    if TakeStep(m, target, e, candidate, None).raised {
      RaisesExactly(m, target, e, candidate, None);
    }
  }

  lemma DispatchKeepsInv(v: Live, a: string, attemptId: string, e: Evidence, candidate: Identity, tick: nat)
    requires Inv(v)
    ensures Inv(LiveDispatch(v, a, attemptId, e, candidate, tick).0)
  {
    hide TransitionFacts, TakeStep, ValidEvidenceId, ValidAttemptId, Inv, StepEvents;
    var after := LiveDispatch(v, a, attemptId, e, candidate, tick).0;
    if after != v {
      LogOfInv(v);
      var m := v.ops[a].machine;
      var s := TakeStep(m, InFlight, e, candidate, Some(attemptId));
      SucceedsExactly(m, InFlight, e, candidate, Some(attemptId));
      if s.raised {
        RaisesExactly(m, InFlight, e, candidate, Some(attemptId));
        CommitKeepsInv(v, v.events, a, s, InFlight, e, candidate, Some(attemptId), tick);
      } else {
        var mid := v.events + [Lifecycle(v.events, tick, AttemptDispatched, m.identity, Some(attemptId), map[])];
        LifecycleGrows(v.events, tick, AttemptDispatched, m.identity, Some(attemptId), map[]);
        CommitKeepsInv(v, mid, a, s, InFlight, e, candidate, Some(attemptId), tick);
      }
    }
  }

  lemma HandleKeepsInv(v: Live, closed: bool)
    requires Inv(v)
    ensures Inv(v.(closed := closed))
  {
    hide OpInv, LogInv;
  }

  /** Every call on a live ledger keeps its invariant. */
  lemma StepKeepsInv(v: Live, c: Call)
    requires Inv(v)
    ensures Inv(LiveStep(v, c).0)
  {
    LogOfInv(v);
    hide Inv, LogInv, TransitionFacts, TakeStep, LiveAppend, LiveRegister, LiveTransition, LiveDispatch, LiveSnapshots;
    HandleKeepsInv(v, true);
    HandleKeepsInv(v, false);
    match c {
      case AppendCall(e) => AppendKeepsInv(v, e);
      case RegisterCall(id, tick) => RegisterKeepsInv(v, id, tick);
      case TransitionCall(a, target, e, candidate, tick) => TransitionKeepsInv(v, a, target, e, candidate, tick);
      case DispatchCall(a, attemptId, e, candidate, tick) => DispatchKeepsInv(v, a, attemptId, e, candidate, tick);
      case _ =>
    }
  }
}
