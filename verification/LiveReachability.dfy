/** Which live ledgers a sequence of calls can lead to: those that keep the invariant and
    hold nothing no call writes. The last call is read off the last event and undone. */
module LiveReachability {
  import opened Wrappers
  import opened StateMachine
  import opened Histories
  import opened Contracts
  import opened LedgerCalls
  import opened LedgerChecker
  import opened LedgerProtocol
  import opened LiveLedger
  import opened LiveInvariant
  import opened LedgerReachable

  /** Links of the kinds only appended events use. */
  predicate PlainLinks(links: Links) {
    links.effectId.None? && links.workflowId.None? && links.faultId.None?
  }

  /** Managed events link to nothing but an identity and an attempt. */
  predicate ManagedPlain(events: seq<Event>) {
    forall i | 0 <= i < |events| :: Managed(events[i].kind) ==> PlainLinks(events[i].links)
  }

  /** An attempt id goes with an attempted entry into IN_FLIGHT, and only with one. */
  predicate IdFits(r: Record) {
    r.attemptId.Some? <==> r.attempted == InFlight
  }

  predicate IdsFit(log: seq<Entry>) {
    forall j | 0 <= j < |log| :: IdFits(log[j].record)
  }

  predicate Writable(v: Live) {
    !v.closed && ManagedPlain(v.events) && forall a | a in v.ops :: IdsFit(v.ops[a].log)
  }

  // ---------- Shorter logs ----------

  /** Everything an operation refers to stands among the first `k` events. */
  predicate RefersWithin(op: LiveOp, k: int) {
    op.createdSeq <= k && forall j | 0 <= j < |op.log| :: op.log[j].eventSeq <= k
  }

  lemma LinkedShrinks(events: seq<Event>, k: nat, id: Identity, e: Entry)
    requires k <= |events| && Linked(events, id, e) && e.eventSeq <= k
    ensures Linked(events[..k], id, e)
  {
    hide TransitionFacts, IdentityLinks, MatchesIdentity;
    assert forall n | n <= k :: EventAt(events[..k], n) == EventAt(events, n);
  }

  lemma OpShrinks(events: seq<Event>, k: nat, a: string, op: LiveOp)
    requires k <= |events| && OpInv(events, a, op) && RefersWithin(op, k)
    ensures OpInv(events[..k], a, op)
  {
    hide Linked, Legal, After, IsProposal;
    AtShrinks(events, k, op.createdSeq);
    forall j | 0 <= j < |op.log| ensures Linked(events[..k], op.machine.identity, op.log[j]) {
      LinkedShrinks(events, k, op.machine.identity, op.log[j]);
    }
  }

  lemma AtShrinks(events: seq<Event>, k: nat, n: int)
    requires n <= k <= |events|
    ensures EventAt(events[..k], n) == EventAt(events, n)
  {
  }

  lemma LogShrinks(events: seq<Event>, k: nat)
    requires LogInv(events) && k <= |events|
    ensures LogInv(events[..k])
    ensures 0 < k < |events| ==> LastTick(events[..k]) <= events[k].tick
    ensures k == 0 < |events| ==> LastTick(events[..k]) <= events[k].tick
  {
  }

  /** The kinds of events an operation refers to. */
  lemma ReferredKinds(events: seq<Event>, a: string, op: LiveOp)
    requires OpInv(events, a, op)
    ensures 1 <= op.createdSeq <= |events| && events[op.createdSeq - 1].kind == ActionProposed
    ensures forall j | 0 <= j < |op.log| ::
              1 <= op.log[j].eventSeq <= |events| && events[op.log[j].eventSeq - 1].kind == StateTransition
  {
    hide Legal, After, TransitionFacts;
    forall j | 0 <= j < |op.log|
      ensures 1 <= op.log[j].eventSeq <= |events| && events[op.log[j].eventSeq - 1].kind == StateTransition
    {
      assert Linked(events, op.machine.identity, op.log[j]);
    }
  }

  /** Sequence numbers of one operation's entries rise. */
  lemma {:induction false} EntriesRise(events: seq<Event>, a: string, op: LiveOp, i: nat, j: nat)
    requires OpInv(events, a, op) && i <= j < |op.log|
    ensures op.createdSeq < op.log[i].eventSeq <= op.log[j].eventSeq
    ensures i < j ==> op.log[i].eventSeq < op.log[j].eventSeq
  {
    hide Legal, After, Linked, IsProposal;
    assert SeqBefore(op, j) < op.log[j].eventSeq;
    if i < j {
      EntriesRise(events, a, op, i, j - 1);
    } else if j > 0 {
      EntriesRise(events, a, op, j - 1, j - 1);
    }
  }

  // ---------- Undoing an append ----------

  lemma NoneRefersTo(v: Live, n: nat)
    requires Inv(v) && 0 < n == |v.events| && v.events[n - 1].kind != ActionProposed
    requires v.events[n - 1].kind != StateTransition
    ensures forall a | a in v.ops :: RefersWithin(v.ops[a], n - 1)
  {
    hide Inv, OpInv;
    forall a | a in v.ops ensures RefersWithin(v.ops[a], n - 1) {
      OpOfInv(v, a);
      ReferredKinds(v.events, a, v.ops[a]);
    }
  }

  lemma ShorterInv(v: Live, k: nat)
    requires Inv(v) && k <= |v.events| && forall a | a in v.ops :: RefersWithin(v.ops[a], k)
    ensures Inv(v.(events := v.events[..k]))
  {
    hide LogInv, OpInv, Ordered, AttemptsInv, Owned, RefersWithin;
    LogShrinks(v.events, k);
    AttemptsIgnoreEvents(v, v.events[..k]);
    forall a | a in v.ops ensures OpInv(v.events[..k], a, v.ops[a]) {
      OpShrinks(v.events, k, a, v.ops[a]);
    }
  }

  lemma AttemptsIgnoreEvents(v: Live, events: seq<Event>)
    requires AttemptsInv(v)
    ensures AttemptsInv(v.(events := events))
  {
  }

  lemma UndoAppend(v: Live) returns (w: Live)
    requires Inv(v) && Writable(v) && |v.events| > 0 && !Managed(v.events[|v.events| - 1].kind)
    ensures w == v.(events := v.events[..|v.events| - 1]) && Inv(w) && Writable(w)
    ensures LiveAppend(w, v.events[|v.events| - 1]).0 == v
  {
    hide Inv, ValidEvent, RefersWithin, PlainLinks;
    var n := |v.events|;
    NoneRefersTo(v, n);
    ShorterInv(v, n - 1);
    LogOrdered(v);
    w := v.(events := v.events[..n - 1]);
    assert v.events[..n - 1] + [v.events[n - 1]] == v.events;
    LogShrinks(v.events, n - 1);
  }

  // ---------- Undoing a registration ----------

  /** The operation whose proposal is the last event has no transitions yet. */
  lemma LastProposed(v: Live) returns (a: string)
    requires Inv(v) && |v.events| > 0 && v.events[|v.events| - 1].kind == ActionProposed
    ensures a in v.ops && v.ops[a].createdSeq == |v.events| && v.ops[a].log == []
  {
    hide OpInv, LogInv, Ordered, AttemptsInv;
    var n := |v.events|;
    assert Owned(v.ops, n);
    a :| a in v.ops && Owns(v.ops[a], n);
    OpOfInv(v, a);
    ReferredKinds(v.events, a, v.ops[a]);
    if |v.ops[a].log| > 0 { EntriesRise(v.events, a, v.ops[a], 0, 0); }
  }

  lemma LastInOrder(v: Live, a: string)
    requires Inv(v) && a in v.ops && v.ops[a].createdSeq == |v.events|
    ensures |v.order| > 0 && v.order[|v.order| - 1] == a
    ensures forall b | b in v.ops && b != a :: v.ops[b].createdSeq < |v.events|
    ensures Ordered(v.order[..|v.order| - 1], v.ops - {a})
  {
    hide OpInv, LogInv, AttemptsInv, Owned;
    var i :| 0 <= i < |v.order| && v.order[i] == a;
    forall b | b in v.ops ensures v.ops[b].createdSeq <= |v.events| {
      OpOfInv(v, b);
      CreatedInLog(v.events, b, v.ops[b]);
    }
    if i < |v.order| - 1 {
      CreatedRise(v.order, v.ops, i, |v.order| - 1);
    }
    forall b | b in v.ops && b != a ensures v.ops[b].createdSeq < |v.events| {
      var j :| 0 <= j < |v.order| && v.order[j] == b;
      CreatedRise(v.order, v.ops, j, i);
    }
    OrderWithoutLast(v.order, v.ops);
  }

  lemma {:induction false} CreatedRise(order: seq<string>, ops: map<string, LiveOp>, i: nat, j: nat)
    requires Ordered(order, ops) && i < j < |order|
    ensures ops[order[i]].createdSeq < ops[order[j]].createdSeq
  {
    assert ops[order[j - 1]].createdSeq < ops[order[j]].createdSeq;
    if i < j - 1 { CreatedRise(order, ops, i, j - 1); }
  }

  lemma OrderWithoutLast(order: seq<string>, ops: map<string, LiveOp>)
    requires Ordered(order, ops) && |order| > 0
    ensures Ordered(order[..|order| - 1], ops - {order[|order| - 1]})
  {
    var init, last := order[..|order| - 1], order[|order| - 1];
    forall a | a in ops - {last} ensures a in init {
      var i :| 0 <= i < |order| && order[i] == a;
      assert init[i] == a;
    }
  }

  lemma FreshIsEmpty(events: seq<Event>, a: string, op: LiveOp)
    requires OpInv(events, a, op) && op.log == []
    ensures op.machine == Fresh(op.machine.identity) && op.machine.identity.actionId == a
    ensures IsProposal(EventAt(events, op.createdSeq), op.machine.identity)
  {
    hide Linked, IsProposal;
  }

  /** A proposal with plain links is the one registration writes. */
  lemma ProposalIsLifecycle(init: seq<Event>, e: Event, id: Identity)
    requires IsProposal(Some(e), id) && PlainLinks(e.links) && e.seqNo == |init| + 1 && e.tick >= 0
    ensures e == Lifecycle(init, e.tick, ActionProposed, id, None, map[])
  {
  }

  lemma WithoutFresh(v: Live, a: string, order: seq<string>, events: seq<Event>)
    requires AttemptsInv(v) && a in v.ops && v.ops[a].machine.attemptIds == []
    ensures AttemptsInv(v.(events := events, order := order, ops := v.ops - {a}))
  {
    var w := v.(events := events, order := order, ops := v.ops - {a});
    forall x | x in w.attempts ensures exists b :: b in w.ops && x in w.ops[b].machine.attemptIds {
      var b :| b in v.ops && x in v.ops[b].machine.attemptIds;
      assert b in w.ops;
    }
  }

  lemma OwnedWithoutFresh(v: Live, a: string)
    requires a in v.ops && v.ops[a].createdSeq == |v.events| && v.ops[a].log == []
    requires forall i | 0 <= i < |v.events| :: Managed(v.events[i].kind) ==> Owned(v.ops, i + 1)
    ensures forall i | 0 <= i < |v.events| - 1 :: Managed(v.events[i].kind) ==> Owned(v.ops - {a}, i + 1)
  {
    forall i | 0 <= i < |v.events| - 1 && Managed(v.events[i].kind) ensures Owned(v.ops - {a}, i + 1) {
      assert Owned(v.ops, i + 1);
      var b :| b in v.ops && Owns(v.ops[b], i + 1);
      assert b in v.ops - {a};
    }
  }

  function WithoutLast(v: Live, a: string): Live
    requires |v.events| > 0 && |v.order| > 0
  {
    v.(events := v.events[..|v.events| - 1], order := v.order[..|v.order| - 1], ops := v.ops - {a})
  }

  lemma WithoutLastInv(v: Live, a: string)
    requires Inv(v) && |v.events| > 0 && |v.order| > 0
    requires a in v.ops && v.ops[a].createdSeq == |v.events| && v.ops[a].log == []
    requires v.events[|v.events| - 1].kind == ActionProposed
    ensures Inv(WithoutLast(v, a))
  {
    hide OpInv, LogInv, AttemptsInv, Owned, RefersWithin, Ordered;
    var n := |v.events|;
    var w := WithoutLast(v, a);
    LogShrinks(v.events, n - 1);
    LastInOrder(v, a);
    assert v.ops[a].machine.attemptIds == [] by {
      OpOfInv(v, a);
      FreshIsEmpty(v.events, a, v.ops[a]);
    }
    WithoutFresh(v, a, w.order, w.events);
    OwnedWithoutFresh(v, a);
    forall b | b in w.ops ensures OpInv(w.events, b, w.ops[b]) {
      OpOfInv(v, b);
      EarlierRefers(v.events, b, v.ops[b]);
      OpShrinks(v.events, n - 1, b, v.ops[b]);
    }
  }

  lemma EarlierRefers(events: seq<Event>, b: string, op: LiveOp)
    requires OpInv(events, b, op) && |events| > 0 && events[|events| - 1].kind == ActionProposed
    requires op.createdSeq < |events|
    ensures RefersWithin(op, |events| - 1)
  {
    hide OpInv;
    ReferredKinds(events, b, op);
  }

  lemma FewerWritable(v: Live, a: string)
    requires Writable(v) && |v.events| > 0 && |v.order| > 0
    ensures Writable(WithoutLast(v, a))
  {
    hide PlainLinks, IdsFit, Managed;
  }

  /** Registering the removed operation again restores the ledger. */
  lemma RegisteredAgain(v: Live, a: string, last: Event)
    requires |v.events| > 0 && |v.order| > 0 && a in v.ops && v.order[|v.order| - 1] == a
    requires v.ops[a] == LiveOp(Fresh(v.ops[a].machine.identity), |v.events|, [])
    requires v.ops[a].machine.identity.actionId == a && last == v.events[|v.events| - 1] && last.tick >= 0
    requires last == Lifecycle(v.events[..|v.events| - 1], last.tick, ActionProposed, v.ops[a].machine.identity, None,
                               map[])
    requires LastTick(v.events[..|v.events| - 1]) <= last.tick
    ensures LiveRegister(WithoutLast(v, a), v.ops[a].machine.identity, last.tick).0 == v
  {
    hide Lifecycle, SnapshotOfLive, LastTick;
    var w := WithoutLast(v, a);
    assert v.events == w.events + [last];
    assert w.ops[a := v.ops[a]] == v.ops;
    assert v.order == w.order + [a];
  }

  lemma UndoRegister(v: Live) returns (w: Live, id: Identity)
    requires Inv(v) && Writable(v) && |v.events| > 0 && v.events[|v.events| - 1].kind == ActionProposed
    ensures Inv(w) && Writable(w) && w.runId == v.runId && |w.events| < |v.events| && v.events[|v.events| - 1].tick >= 0
    ensures LiveRegister(w, id, v.events[|v.events| - 1].tick).0 == v
  {
    hide Inv, IsProposal, Lifecycle, PlainLinks, LiveRegister, Ordered, OpInv, LastTick, OrderInv;
    var n := |v.events|;
    var last := v.events[n - 1];
    LogOrdered(v);
    var a := LastProposed(v);
    LastInOrder(v, a);
    WithoutLastInv(v, a);
    FewerWritable(v, a);
    w := WithoutLast(v, a);
    OpOfInv(v, a);
    FreshIsEmpty(v.events, a, v.ops[a]);
    id := v.ops[a].machine.identity;
    assert EventAt(v.events, n) == Some(last);
    ProposalIsLifecycle(w.events, last, id);
    LogShrinks(v.events, n - 1);
    RegisteredAgain(v, a, last);
  }

  // ---------- Undoing a step ----------

  /** The operation whose last entry is the last event. */
  lemma LastMoved(v: Live) returns (a: string)
    requires Inv(v) && |v.events| > 0 && v.events[|v.events| - 1].kind == StateTransition
    ensures a in v.ops && |v.ops[a].log| > 0 && v.ops[a].log[|v.ops[a].log| - 1].eventSeq == |v.events|
  {
    hide OpInv, LogInv, Ordered, AttemptsInv, Linked;
    var n := |v.events|;
    assert Owned(v.ops, n);
    a :| a in v.ops && Owns(v.ops[a], n);
    OpOfInv(v, a);
    ReferredKinds(v.events, a, v.ops[a]);
    var op := v.ops[a];
    var j :| 0 <= j < |op.log| && OwnsAt(op.log[j], n);
    EntriesRise(v.events, a, op, j, |op.log| - 1);
  }

  function LastEntry(op: LiveOp): Entry
    requires |op.log| > 0
  {
    op.log[|op.log| - 1]
  }

  /** The operation before its last entry. */
  function Earlier(op: LiveOp): LiveOp
    requires |op.log| > 0
  {
    var init := op.log[..|op.log| - 1];
    LiveOp(After(op.machine.identity, init), op.createdSeq, init)
  }

  /** The number of events before those of the last step. */
  function Base(events: seq<Event>, e: Entry): int {
    if HasPartner(e.record) then |events| - 2 else |events| - 1
  }

  /** The ledger before the step that made the last entry of `a`. */
  function Undone(v: Live, a: string): Live
    requires a in v.ops && |v.ops[a].log| > 0 && 0 <= Base(v.events, LastEntry(v.ops[a])) <= |v.events|
  {
    var e := LastEntry(v.ops[a]);
    v.(events := v.events[..Base(v.events, e)],
       ops := v.ops[a := Earlier(v.ops[a])],
       attempts :=
         if e.record.resulting == InFlight && e.record.attemptId.Some? then v.attempts - {e.record.attemptId.value}
         else v.attempts)
  }

  lemma LastSplit(events: seq<Event>, a: string, op: LiveOp)
    requires OpInv(events, a, op) && |op.log| > 0
    ensures var m := Earlier(op).machine;
            && Legal(op.machine.identity, Earlier(op).log)
            && Fits(m, LastEntry(op)) && op.machine == Replayed(m, LastEntry(op)).machine
            && m.identity == op.machine.identity && Link(m.state, LastEntry(op))
            && op.machine.attemptIds == m.attemptIds
                 + (if LastEntry(op).record.resulting == InFlight then [LastEntry(op).record.attemptId.value] else [])
            && (LastEntry(op).record.resulting == InFlight ==>
                  LastEntry(op).record.attemptId.Some? && LastEntry(op).record.attemptId.value !in m.attemptIds)
    ensures Linked(events, op.machine.identity, LastEntry(op))
  {
    hide Linked, Fits, Link, Replayed, IsProposal;
    var n := |op.log| - 1;
    MachineOfLegal(op.machine.identity, op.log[..n]);
    FittingEntry(Earlier(op).machine, op.log[n]);
    AttemptOfEntry(Earlier(op).machine.state, op.log[n]);
  }

  lemma AttemptOfEntry(source: State, e: Entry)
    requires Link(source, e)
    ensures e.record.resulting == InFlight ==> e.record.attemptId.Some?
  {
    hide ValidAttemptId, GuardHolds, NormativeCause;
  }

  /** The step's partner is the event right before its transition event. */
  lemma PartnerKind(events: seq<Event>, id: Identity, e: Entry)
    requires Linked(events, id, e) && e.eventSeq == |events|
    ensures 0 <= Base(events, e) < |events|
    ensures HasPartner(e.record) ==> |events| >= 2
    ensures HasPartner(e.record) ==>
              events[|events| - 2].kind == OperationPrepared || events[|events| - 2].kind == AttemptDispatched
  {
    hide TransitionFacts, MatchesIdentity, IdentityLinks;
  }

  lemma EarlierInv(events: seq<Event>, a: string, op: LiveOp)
    requires OpInv(events, a, op) && |op.log| > 0 && LastEntry(op).eventSeq == |events|
    ensures 0 <= Base(events, LastEntry(op)) <= |events|
    ensures OpInv(events[..Base(events, LastEntry(op))], a, Earlier(op))
  {
    var k := Base(events, LastEntry(op));
    LastSplit(events, a, op);
    PartnerKind(events, op.machine.identity, LastEntry(op));
    assert OpInv(events, a, Earlier(op)) by { EarlierOp(events, a, op); }
    assert RefersWithin(Earlier(op), k) by { EarlierWithin(events, a, op); }
    hide OpInv;
    OpShrinks(events, k, a, Earlier(op));
  }

  lemma EarlierOp(events: seq<Event>, a: string, op: LiveOp)
    requires OpInv(events, a, op) && |op.log| > 0 && Earlier(op).machine.identity == op.machine.identity
    ensures OpInv(events, a, Earlier(op))
  {
    hide Linked, After, IsProposal, Fits;
    var w := Earlier(op);
    assert Legal(op.machine.identity, w.log);
    forall j | 0 <= j < |w.log|
      ensures Linked(events, op.machine.identity, w.log[j]) && SeqBefore(w, j) < w.log[j].eventSeq
    {
      assert w.log[j] == op.log[j];
      assert SeqBefore(w, j) == SeqBefore(op, j);
    }
  }

  /** A proposal or transition event before the last event is not part of the last step. */
  lemma BelowBase(events: seq<Event>, e: Entry, n: int)
    requires HasPartner(e.record) ==>
               |events| >= 2
               && (events[|events| - 2].kind == OperationPrepared || events[|events| - 2].kind == AttemptDispatched)
    requires 1 <= n < |events| && (events[n - 1].kind == ActionProposed || events[n - 1].kind == StateTransition)
    ensures n <= Base(events, e)
  {
    hide HasPartner;
  }

  lemma EarlierWithin(events: seq<Event>, a: string, op: LiveOp)
    requires OpInv(events, a, op) && |op.log| > 0 && LastEntry(op).eventSeq == |events|
    ensures RefersWithin(Earlier(op), Base(events, LastEntry(op)))
  {
    hide OpInv, Linked, Base, HasPartner, After;
    OpLinked(events, a, op);
    PartnerKind(events, op.machine.identity, LastEntry(op));
    ReferredKinds(events, a, op);
    var n := |op.log| - 1;
    EntriesRise(events, a, op, n, n);
    BelowBase(events, LastEntry(op), op.createdSeq);
    forall j | 0 <= j < n ensures op.log[j].eventSeq <= Base(events, LastEntry(op)) {
      EntriesRise(events, a, op, j, n);
      BelowBase(events, LastEntry(op), op.log[j].eventSeq);
    }
  }

  lemma OpLinked(events: seq<Event>, a: string, op: LiveOp)
    requires OpInv(events, a, op) && |op.log| > 0
    ensures Linked(events, op.machine.identity, LastEntry(op)) && op.machine.identity.actionId == a
  {
    hide Legal, After, Linked, IsProposal;
  }

  /** Another operation refers to none of the step's events. */
  lemma OthersWithin(events: seq<Event>, a: string, op: LiveOp, b: string, other: LiveOp)
    requires OpInv(events, a, op) && |op.log| > 0 && LastEntry(op).eventSeq == |events|
    requires OpInv(events, b, other) && b != a
    ensures RefersWithin(other, Base(events, LastEntry(op)))
  {
    hide OpInv, Linked;
    OpLinked(events, a, op);
    PartnerKind(events, op.machine.identity, LastEntry(op));
    ReferredKinds(events, a, op);
    ReferredKinds(events, b, other);
    forall j | 0 <= j < |other.log| ensures other.log[j].eventSeq != |events| {
      EntryActions(events, a, op, b, other, j);
    }
  }

  lemma EntryActions(events: seq<Event>, a: string, op: LiveOp, b: string, other: LiveOp, j: nat)
    requires OpInv(events, a, op) && |op.log| > 0 && LastEntry(op).eventSeq == |events|
    requires OpInv(events, b, other) && b != a && j < |other.log|
    ensures other.log[j].eventSeq != |events|
  {
    hide Legal, After, TransitionFacts, IsProposal, IsPreparation, IsDispatch;
    assert Linked(events, op.machine.identity, LastEntry(op));
    assert Linked(events, other.machine.identity, other.log[j]);
  }

  lemma UndoneOps(v: Live, a: string)
    requires Inv(v) && a in v.ops && |v.ops[a].log| > 0 && LastEntry(v.ops[a]).eventSeq == |v.events|
    ensures 0 <= Base(v.events, LastEntry(v.ops[a])) <= |v.events|
    ensures forall b | b in v.ops :: OpInv(Undone(v, a).events, b, Undone(v, a).ops[b])
  {
    hide Inv, OpInv, Linked;
    OpOfInv(v, a);
    EarlierInv(v.events, a, v.ops[a]);
    forall b | b in v.ops ensures OpInv(Undone(v, a).events, b, Undone(v, a).ops[b]) {
      if b != a {
        OpOfInv(v, b);
        OthersWithin(v.events, a, v.ops[a], b, v.ops[b]);
        OpShrinks(v.events, Base(v.events, LastEntry(v.ops[a])), b, v.ops[b]);
      }
    }
  }

  lemma UndoneOwned(v: Live, a: string)
    requires a in v.ops && |v.ops[a].log| > 0 && LastEntry(v.ops[a]).eventSeq == |v.events|
    requires 0 <= Base(v.events, LastEntry(v.ops[a])) <= |v.events|
    requires forall i | 0 <= i < |v.events| :: Managed(v.events[i].kind) ==> Owned(v.ops, i + 1)
    ensures var w := Undone(v, a);
            forall i | 0 <= i < |w.events| :: Managed(w.events[i].kind) ==> Owned(w.ops, i + 1)
  {
    hide Owns, Managed, Base, LastEntry, Earlier;
    var w := Undone(v, a);
    var op := v.ops[a];
    forall i | 0 <= i < |w.events| && Managed(w.events[i].kind) ensures Owned(w.ops, i + 1) {
      assert w.events[i] == v.events[i];
      var b :| b in v.ops && Owns(v.ops[b], i + 1);
      NotOfLast(v.events, LastEntry(op), i + 1);
      OwnsEarlier(op, i + 1);
      assert Owns(w.ops[b], i + 1);
    }
  }

  lemma OwnsEarlier(op: LiveOp, n: int)
    requires |op.log| > 0 && !OwnsAt(LastEntry(op), n)
    ensures Owns(op, n) ==> Owns(Earlier(op), n)
  {
    hide OwnsAt, After;
    if j :| 0 <= j < |op.log| && OwnsAt(op.log[j], n) {
      assert Earlier(op).log[j] == op.log[j];
    }
  }

  lemma NotOfLast(events: seq<Event>, e: Entry, n: int)
    requires e.eventSeq == |events| && 1 <= n <= Base(events, e)
    ensures !OwnsAt(e, n)
  {
    hide HasPartner;
  }

  lemma UndoneAttempts(v: Live, a: string)
    requires AttemptsInv(v) && a in v.ops && OpInv(v.events, a, v.ops[a]) && |v.ops[a].log| > 0
    requires 0 <= Base(v.events, LastEntry(v.ops[a])) <= |v.events|
    ensures AttemptsInv(Undone(v, a))
  {
    hide OpInv, Linked, Legal, Fits, Link, Replayed, After;
    LastSplit(v.events, a, v.ops[a]);
    var w := Undone(v, a);
    var e := LastEntry(v.ops[a]);
    forall x | x in w.attempts ensures exists b :: b in w.ops && x in w.ops[b].machine.attemptIds {
      var b :| b in v.ops && x in v.ops[b].machine.attemptIds;
      assert x in w.ops[b].machine.attemptIds;
    }
    forall b, x | b in w.ops && x in w.ops[b].machine.attemptIds ensures x in w.attempts {
      KeptAttempt(v, a, b, x);
    }
  }

  /** The attempt id of the last entry belongs to no other entry. */
  lemma KeptAttempt(v: Live, a: string, b: string, x: string)
    requires AttemptsInv(v) && a in v.ops && b in v.ops && OpInv(v.events, a, v.ops[a]) && |v.ops[a].log| > 0
    requires 0 <= Base(v.events, LastEntry(v.ops[a])) <= |v.events|
    requires x in Undone(v, a).ops[b].machine.attemptIds
    ensures x in Undone(v, a).attempts
  {
    hide OpInv, Linked, Legal, Fits, Link, Replayed, After;
    LastSplit(v.events, a, v.ops[a]);
    var last := LastEntry(v.ops[a]).record;
    assert x in v.ops[b].machine.attemptIds;
    assert last.resulting == InFlight ==> last.attemptId.value in v.ops[a].machine.attemptIds;
  }

  lemma UndoneInv(v: Live, a: string)
    requires Inv(v) && a in v.ops && |v.ops[a].log| > 0 && LastEntry(v.ops[a]).eventSeq == |v.events|
    ensures 0 <= Base(v.events, LastEntry(v.ops[a])) <= |v.events| && Inv(Undone(v, a))
  {
    hide OpInv, LogInv, Ordered, AttemptsInv, Owned;
    UndoneOps(v, a);
    OpOfInv(v, a);
    LogShrinks(v.events, Base(v.events, LastEntry(v.ops[a])));
    OrderKept(v.order, v.ops, a, Earlier(v.ops[a]));
    UndoneOwned(v, a);
    UndoneAttempts(v, a);
  }

  lemma UndoneWritable(v: Live, a: string)
    requires Writable(v) && a in v.ops && |v.ops[a].log| > 0
    requires 0 <= Base(v.events, LastEntry(v.ops[a])) <= |v.events|
    ensures Writable(Undone(v, a))
  {
    hide PlainLinks, Managed, IdFits, After;
    assert IdsFit(Earlier(v.ops[a]).log);
  }

  /** The events of the last step are the ones committing it writes. */
  lemma TransitionIsLifecycle(events: seq<Event>, id: Identity, e: Entry)
    requires Linked(events, id, e) && LogInv(events) && e.eventSeq == |events|
    ensures |events| > 0 && events[|events| - 1].tick >= 0
    ensures events[|events| - 1]
         == Lifecycle(events[..|events| - 1], events[|events| - 1].tick, StateTransition, id, e.record.attemptId,
                      TransitionFacts(e.record, e.evidence))
  {
    hide TransitionFacts, IdentityLinks, MatchesIdentity, ValidEvidenceMap, IsDispatch, IsPreparation;
  }

  lemma PreparationIsLifecycle(events: seq<Event>, id: Identity, n: nat, tick: nat)
    requires LogInv(events) && ManagedPlain(events) && IsPreparation(EventAt(events, n), id, tick)
    ensures 1 <= n <= |events| && events[n - 1] == Lifecycle(events[..n - 1], tick, OperationPrepared, id, None, map[])
  {
    hide ValidEvidenceMap;
  }

  lemma DispatchIsLifecycle(events: seq<Event>, id: Identity, n: nat, x: string, tick: nat)
    requires LogInv(events) && ManagedPlain(events) && IsDispatch(EventAt(events, n), id, x)
    requires EventAt(events, n).value.tick == tick
    ensures 1 <= n <= |events|
    ensures events[n - 1] == Lifecycle(events[..n - 1], tick, AttemptDispatched, id, Some(x), map[])
  {
    hide ValidEvidenceMap;
  }

  lemma SplitLast(events: seq<Event>, n: nat)
    requires 0 < n <= |events|
    ensures events[..n] == events[..n - 1] + [events[n - 1]]
  {
  }

  /** The log before the last step's own events: a dispatch event is written before them. */
  function MidBase(events: seq<Event>, e: Entry): int {
    if SuccessfullyPrepared(e.record) then |events| - 2 else |events| - 1
  }

  lemma StepEventsBack(events: seq<Event>, id: Identity, e: Entry)
    requires Linked(events, id, e) && LogInv(events) && ManagedPlain(events) && e.eventSeq == |events|
    ensures |events| > 0 && events[|events| - 1].tick >= 0 && 0 <= MidBase(events, e) <= |events|
    ensures StepEvents(events[..MidBase(events, e)], id, e.record, e.evidence, events[|events| - 1].tick) == events
  {
    hide LogInv, ManagedPlain, TransitionFacts, Lifecycle, IsDispatch, IsPreparation, IdentityLinks;
    TransitionIsLifecycle(events, id, e);
    var n := |events|;
    var tick := events[n - 1].tick;
    assert events[..n] == events;
    SplitLast(events, n);
    if SuccessfullyPrepared(e.record) {
      assert IsPreparation(EventAt(events, n - 1), id, tick);
      PreparedWithin(events, n - 1, id, tick);
      PreparationIsLifecycle(events, id, n - 1, tick);
      SplitLast(events, n - 1);
    }
  }

  lemma PreparedWithin(events: seq<Event>, n: int, id: Identity, tick: int)
    requires IsPreparation(EventAt(events, n), id, tick)
    ensures 1 <= n <= |events|
  {
    hide MatchesIdentity;
  }

  lemma DispatchedBefore(events: seq<Event>, id: Identity, e: Entry)
    requires Linked(events, id, e) && LogInv(events) && ManagedPlain(events) && e.eventSeq == |events|
    requires e.record.resulting == InFlight
    ensures e.record.attemptId.Some? && |events| >= 2 && events[|events| - 1].tick >= 0
    ensures var base := events[..|events| - 2];
            base + [Lifecycle(base, events[|events| - 1].tick, AttemptDispatched, id, e.record.attemptId, map[])]
            == events[..|events| - 1]
  {
    hide LogInv, ManagedPlain, TransitionFacts, Lifecycle, IsPreparation, IdentityLinks, MatchesIdentity;
    TransitionIsLifecycle(events, id, e);
    var n := |events|;
    assert EventAt(events, n) == Some(events[n - 1]);
    DispatchIsLifecycle(events, id, n - 1, e.record.attemptId.value, events[n - 1].tick);
    SplitLast(events, n - 1);
  }

  /** Committing the last step on the ledger before it gives the ledger back. */
  lemma CommittedAgain(v: Live, w: Live, a: string, s: Step, tick: nat)
    requires a in v.ops && |v.ops[a].log| > 0 && LastEntry(v.ops[a]).eventSeq == |v.events|
    requires w == v.(events := w.events, ops := v.ops[a := Earlier(v.ops[a])])
    requires s.machine == v.ops[a].machine && s.record == LastEntry(v.ops[a]).record
    requires Earlier(v.ops[a]).machine.identity == v.ops[a].machine.identity
    requires StepEvents(w.events, v.ops[a].machine.identity, s.record, LastEntry(v.ops[a]).evidence, tick) == v.events
    ensures CommitStep(w, a, s, LastEntry(v.ops[a]).evidence, LastEntry(v.ops[a]).candidate, tick) == v
  {
    hide StepEvents, After;
    var op := v.ops[a];
    assert op.log == op.log[..|op.log| - 1] + [LastEntry(op)];
    assert v.ops[a := Earlier(op)][a := op] == v.ops;
  }

  /** The call behind an entry, on the machine before it. */
  lemma StepBehind(events: seq<Event>, a: string, op: LiveOp)
    requires OpInv(events, a, op) && |op.log| > 0
    ensures var m, e := Earlier(op).machine, LastEntry(op);
            var s := Replayed(m, e);
            && s.machine == op.machine && s.record == e.record && m.identity == op.machine.identity
            && m.state != Violation && ValidEvidenceId(e.evidence.evidenceId)
            && (e.record.attemptId.Some? ==> ValidAttemptId(e.record.attemptId.value))
            && (e.record.resulting == if s.raised then Violation else e.record.attempted)
            && (e.record.resulting == InFlight ==>
                  && e.record.attempted == InFlight && e.record.attemptId.Some?
                  && e.record.attemptId.value !in m.attemptIds && e.record.attemptId.value in op.machine.attemptIds)
    ensures Linked(events, op.machine.identity, LastEntry(op))
  {
    var m, e := Earlier(op).machine, LastEntry(op);
    LastSplit(events, a, op);
    hide OpInv, Linked, TakeStep, ValidAttemptId, ValidEvidenceId, After, Legal, GuardHolds, NormativeCause;
    SucceedsExactly(m, e.record.attempted, e.evidence, e.candidate, e.record.attemptId);
    if Replayed(m, e).raised {
      RaisesExactly(m, e.record.attempted, e.evidence, e.candidate, e.record.attemptId);
    }
  }

  predicate LastOf(v: Live, a: string) {
    a in v.ops && |v.ops[a].log| > 0 && LastEntry(v.ops[a]).eventSeq == |v.events| > 0
  }

  /** The call that made the last entry of `a`. */
  function CallBehind(e: Entry, a: string, tick: nat): Call {
    if e.record.attempted == InFlight && e.record.attemptId.Some?
    then DispatchCall(a, e.record.attemptId.value, e.evidence, e.candidate, tick)
    else TransitionCall(a, e.record.attempted, e.evidence, e.candidate, tick)
  }

  lemma TickBefore(events: seq<Event>, k: nat, tick: int)
    requires LogInv(events) && k < |events| && tick == events[|events| - 1].tick
    requires k == |events| - 1 || (k == |events| - 2 && events[k].tick == tick)
    ensures LastTick(events[..k]) <= tick
  {
    LogShrinks(events, k);
  }

  /** A step that does not dispatch writes the events after its base. */
  lemma EventsAfterBase(events: seq<Event>, id: Identity, e: Entry)
    requires Linked(events, id, e) && LogInv(events) && ManagedPlain(events) && e.eventSeq == |events|
    requires e.record.resulting != InFlight
    ensures |events| > 0 && events[|events| - 1].tick >= 0 && 0 <= Base(events, e) < |events|
    ensures StepEvents(events[..Base(events, e)], id, e.record, e.evidence, events[|events| - 1].tick) == events
    ensures LastTick(events[..Base(events, e)]) <= events[|events| - 1].tick
  {
    StepEventsBack(events, id, e);
    PreparedTick(events, id, e);
    hide StepEvents, TransitionFacts, LogInv, ManagedPlain, Linked;
    TickBefore(events, Base(events, e), events[|events| - 1].tick);
  }

  lemma PreparedTick(events: seq<Event>, id: Identity, e: Entry)
    requires Linked(events, id, e) && e.eventSeq == |events|
    ensures SuccessfullyPrepared(e.record) ==>
              |events| >= 2 && events[|events| - 2].tick == events[|events| - 1].tick
    ensures e.record.resulting == InFlight ==>
              |events| >= 2 && events[|events| - 2].tick == events[|events| - 1].tick
  {
    hide TransitionFacts, IdentityLinks, MatchesIdentity;
  }

  /** A transition that commits its step leads where committing it leads. */
  lemma Moves(w: Live, a: string, target: State, e: Evidence, candidate: Identity, tick: nat)
    requires a in w.ops && w.ops[a].machine.state != Violation && target != InFlight && ValidEvidenceId(e.evidenceId)
    requires tick >= LastTick(w.events)
    ensures LiveTransition(w, a, target, e, candidate, tick).0
         == CommitStep(w, a, TakeStep(w.ops[a].machine, target, e, candidate, None), e, candidate, tick)
  {
    hide TakeStep, CommitStep, ValidEvidenceId;
  }

  /** Stepping the earlier machine on the earlier ledger gives the ledger back. */
  lemma UndoTransition(v: Live, a: string)
    requires LastOf(v, a) && OpInv(v.events, a, v.ops[a]) && LogInv(v.events) && Writable(v)
    requires LastEntry(v.ops[a]).record.attempted != InFlight && LastEntry(v.ops[a]).record.attemptId.None?
    ensures v.events[|v.events| - 1].tick >= 0 && 0 <= Base(v.events, LastEntry(v.ops[a])) < |v.events|
    ensures var e := LastEntry(v.ops[a]);
            LiveTransition(Undone(v, a), a, e.record.attempted, e.evidence, e.candidate,
                           v.events[|v.events| - 1].tick).0 == v
  {
    var op := v.ops[a];
    var e := LastEntry(op);
    StepBehind(v.events, a, op);
    EventsAfterBase(v.events, op.machine.identity, e);
    hide OpInv, LogInv, Linked, TakeStep, StepEvents, CommitStep, Base, LastTick, ManagedPlain, IdsFit, ValidEvidenceId,
         ValidAttemptId, After, LastEntry, Earlier, Writable, LiveTransition;
    Moves(Undone(v, a), a, e.record.attempted, e.evidence, e.candidate, v.events[|v.events| - 1].tick);
    CommittedAgain(v, Undone(v, a), a, Replayed(Earlier(op).machine, e), v.events[|v.events| - 1].tick);
  }

  lemma Dispatches(w: Live, a: string, x: string, e: Evidence, candidate: Identity, tick: nat)
    requires a in w.ops && w.ops[a].machine.state != Violation && ValidAttemptId(x) && ValidEvidenceId(e.evidenceId)
    requires tick >= LastTick(w.events)
    ensures var m := w.ops[a].machine;
            var s := TakeStep(m, InFlight, e, candidate, Some(x));
            var mid := w.events + [Lifecycle(w.events, tick, AttemptDispatched, m.identity, Some(x), map[])];
            && (s.raised ==>
                  LiveDispatch(w, a, x, e, candidate, tick).0 == CommitStep(w, a, s, e, candidate, tick))
            && (!s.raised && x !in w.attempts ==>
                  LiveDispatch(w, a, x, e, candidate, tick).0
                  == CommitStep(w.(events := mid, attempts := w.attempts + {x}), a, s, e, candidate, tick))
  {
    hide TakeStep, CommitStep, ValidEvidenceId, ValidAttemptId, Lifecycle;
  }

  /** The same for a dispatch refused as a violation, and for one that was permitted. */
  lemma UndoRefusedDispatch(v: Live, a: string)
    requires LastOf(v, a) && OpInv(v.events, a, v.ops[a]) && LogInv(v.events) && Writable(v)
    requires LastEntry(v.ops[a]).record.attempted == InFlight && LastEntry(v.ops[a]).record.attemptId.Some?
    requires LastEntry(v.ops[a]).record.resulting != InFlight
    ensures v.events[|v.events| - 1].tick >= 0 && 0 <= Base(v.events, LastEntry(v.ops[a])) < |v.events|
    ensures var e := LastEntry(v.ops[a]);
            LiveDispatch(Undone(v, a), a, e.record.attemptId.value, e.evidence, e.candidate,
                         v.events[|v.events| - 1].tick).0 == v
  {
    var op := v.ops[a];
    var e := LastEntry(op);
    StepBehind(v.events, a, op);
    EventsAfterBase(v.events, op.machine.identity, e);
    hide OpInv, LogInv, Linked, TakeStep, StepEvents, CommitStep, Base, LastTick, ManagedPlain, IdsFit, ValidEvidenceId,
         ValidAttemptId, After, LastEntry, Earlier, Writable, Lifecycle, LiveDispatch;
    Dispatches(Undone(v, a), a, e.record.attemptId.value, e.evidence, e.candidate, v.events[|v.events| - 1].tick);
    CommittedAgain(v, Undone(v, a), a, Replayed(Earlier(op).machine, e), v.events[|v.events| - 1].tick);
  }

  /** The events of a permitted dispatch. */
  lemma DispatchEventsBack(events: seq<Event>, id: Identity, e: Entry)
    requires Linked(events, id, e) && LogInv(events) && ManagedPlain(events) && e.eventSeq == |events|
    requires e.record.resulting == InFlight
    ensures e.record.attemptId.Some? && Base(events, e) == |events| - 2 >= 0
    ensures var base, tick := events[..Base(events, e)], events[|events| - 1].tick;
            && tick >= 0 && LastTick(base) <= tick
            && var mid := base + [Lifecycle(base, tick, AttemptDispatched, id, e.record.attemptId, map[])];
            StepEvents(mid, id, e.record, e.evidence, tick) == events
  {
    StepEventsBack(events, id, e);
    DispatchedBefore(events, id, e);
    PreparedTick(events, id, e);
    hide Linked, LogInv, ManagedPlain, StepEvents, Lifecycle, LastTick;
    TickBefore(events, |events| - 2, events[|events| - 1].tick);
  }

  lemma UndoPermittedDispatch(v: Live, a: string)
    requires LastOf(v, a) && OpInv(v.events, a, v.ops[a]) && LogInv(v.events) && Writable(v) && AttemptsInv(v)
    requires LastEntry(v.ops[a]).record.resulting == InFlight
    ensures LastEntry(v.ops[a]).record.attemptId.Some?
    ensures v.events[|v.events| - 1].tick >= 0 && 0 <= Base(v.events, LastEntry(v.ops[a])) < |v.events|
    ensures var e := LastEntry(v.ops[a]);
            LiveDispatch(Undone(v, a), a, e.record.attemptId.value, e.evidence, e.candidate,
                         v.events[|v.events| - 1].tick).0 == v
  {
    hide OpInv, LogInv, Linked, TakeStep, StepEvents, CommitStep, LastTick, ManagedPlain, IdsFit, ValidEvidenceId,
         ValidAttemptId, After, Earlier, Lifecycle, LiveDispatch;
    var op := v.ops[a];
    var e := LastEntry(op);
    StepBehind(v.events, a, op);
    var x := e.record.attemptId.value;
    assert x in v.attempts;
    hide AttemptsInv, LastEntry, Base;
    DispatchEventsBack(v.events, op.machine.identity, e);
    var w, tick := Undone(v, a), v.events[|v.events| - 1].tick;
    assert w.attempts + {x} == v.attempts;
    var mid := w.events + [Lifecycle(w.events, tick, AttemptDispatched, op.machine.identity, Some(x), map[])];
    Dispatches(w, a, x, e.evidence, e.candidate, tick);
    CommittedAgain(v, w.(events := mid, attempts := v.attempts), a, Replayed(Earlier(op).machine, e), tick);
  }

  lemma PartsOfInv(v: Live)
    requires Inv(v)
    ensures LogInv(v.events) && AttemptsInv(v)
  {
    hide OpInv, Owned;
  }

  lemma FitsLast(v: Live, a: string)
    requires Writable(v) && LastOf(v, a)
    ensures IdFits(LastEntry(v.ops[a]).record) && !v.closed
  {
    hide IdFits, ManagedPlain;
    assert IdsFit(v.ops[a].log);
  }

  predicate Precedes(w: Live, v: Live) {
    w.runId == v.runId && |w.events| < |v.events|
  }

  lemma UndoStep(v: Live, a: string) returns (c: Call)
    requires Inv(v) && Writable(v) && LastOf(v, a)
    ensures 0 <= Base(v.events, LastEntry(v.ops[a])) < |v.events|
    ensures OrderInv(Undone(v, a)) && Precedes(Undone(v, a), v)
    ensures LiveStep(Undone(v, a), c).0 == v
  {
    hide Writable, OpInv, LogInv, AttemptsInv, Base, LastEntry, Earlier, LiveTransition, LiveDispatch, Inv;
    var op := v.ops[a];
    var e := LastEntry(op);
    OpOfInv(v, a);
    PartsOfInv(v);
    FitsLast(v, a);
    StepBehind(v.events, a, op);
    UndoneInv(v, a);
    LogOrdered(Undone(v, a));
    if e.record.resulting == InFlight {
      UndoPermittedDispatch(v, a);
    } else if e.record.attempted == InFlight {
      UndoRefusedDispatch(v, a);
    } else {
      UndoTransition(v, a);
    }
    c := CallBehind(e, a, v.events[|v.events| - 1].tick);
  }

  /** A prepared or dispatch event is never the last: its transition event follows it. */
  lemma PartnerIsNotLast(v: Live)
    requires Inv(v) && |v.events| > 0 && Managed(v.events[|v.events| - 1].kind)
    ensures v.events[|v.events| - 1].kind == ActionProposed || v.events[|v.events| - 1].kind == StateTransition
  {
    hide OpInv, LogInv, OrderInv, AttemptsInv;
    var n := |v.events|;
    assert Owned(v.ops, n);
    var a :| a in v.ops && Owns(v.ops[a], n);
    OpOfInv(v, a);
    ReferredKinds(v.events, a, v.ops[a]);
    var op := v.ops[a];
    if n != op.createdSeq {
      var j :| 0 <= j < |op.log| && OwnsAt(op.log[j], n);
      assert op.log[j].eventSeq <= n;
    }
  }

  lemma UndoMove(v: Live) returns (w: Live, c: Call)
    requires Inv(v) && Writable(v) && |v.events| > 0 && v.events[|v.events| - 1].kind == StateTransition
    ensures Inv(w) && Writable(w) && OrderInv(w) && Precedes(w, v) && LiveStep(w, c).0 == v
  {
    hide Inv, Writable, Base, Earlier, LiveStep, OrderInv, Precedes, Undone, Managed;
    var a := LastMoved(v);
    assert LastOf(v, a);
    hide LastOf, LastEntry;
    c := UndoStep(v, a);
    UndoneInv(v, a);
    UndoneWritable(v, a);
    w := Undone(v, a);
  }

  lemma UndoProposal(v: Live) returns (w: Live, c: Call)
    requires Inv(v) && Writable(v) && |v.events| > 0 && v.events[|v.events| - 1].kind == ActionProposed
    ensures Inv(w) && Writable(w) && OrderInv(w) && Precedes(w, v) && LiveStep(w, c).0 == v
  {
    hide Inv, LiveRegister, OrderInv, ManagedPlain, IdsFit;
    var id;
    w, id := UndoRegister(v);
    c := RegisterCall(id, v.events[|v.events| - 1].tick);
    LogOrdered(w);
  }

  lemma UndoOther(v: Live) returns (w: Live, c: Call)
    requires Inv(v) && Writable(v) && |v.events| > 0 && !Managed(v.events[|v.events| - 1].kind)
    ensures Inv(w) && Writable(w) && OrderInv(w) && Precedes(w, v) && LiveStep(w, c).0 == v
  {
    hide Inv, LiveAppend, OrderInv, ManagedPlain, IdsFit;
    w := UndoAppend(v);
    c := AppendCall(v.events[|v.events| - 1]);
    LogOrdered(w);
  }

  /** The last call of a ledger that keeps the invariant and holds nothing no call writes:
      a shorter such ledger from which one call leads back. */
  lemma UndoLast(v: Live) returns (w: Live, c: Call)
    requires Inv(v) && Writable(v) && |v.events| > 0
    ensures Inv(w) && Writable(w) && OrderInv(w) && Precedes(w, v) && LiveStep(w, c).0 == v
  {
    hide Inv, Writable, LiveStep, OrderInv, Precedes;
    if !Managed(v.events[|v.events| - 1].kind) {
      w, c := UndoOther(v);
    } else {
      PartnerIsNotLast(v);
      if v.events[|v.events| - 1].kind == ActionProposed {
        w, c := UndoProposal(v);
      } else {
        w, c := UndoMove(v);
      }
    }
  }

  lemma FirstListed(order: seq<string>, ops: map<string, LiveOp>)
    requires Ordered(order, ops)
    ensures |order| > 0 ==> order[0] in ops
  {
  }

  lemma NothingYet(v: Live)
    requires Inv(v) && Writable(v) && |v.events| == 0
    ensures v == Empty(v.runId)
  {
    hide OpInv, LogInv;
    forall a | a in v.ops ensures false {
      OpOfInv(v, a);
      CreatedInLog(v.events, a, v.ops[a]);
    }
    FirstListed(v.order, v.ops);
    assert v.ops == map[] && v.order == [] && v.attempts == {} && v.events == [];
  }

  lemma RunAppends(v: Live, calls: seq<Call>, c: Call)
    requires Inv(v) && OrderInv(LiveRun(v, calls).0)
    ensures LiveRun(v, calls + [c]).0 == LiveStep(LiveRun(v, calls).0, c).0
  {
    hide Inv, LiveStep, OrderInv, LiveRun;
    LastOfRun(v, calls + [c]);
    assert (calls + [c])[..|calls|] == calls;
  }

  /** Every live ledger that keeps the invariant and holds nothing no call writes is where
      some sequence of calls on the empty ledger leads. */
  lemma {:induction false} CallsTo(v: Live) returns (calls: seq<Call>)
    requires Inv(v) && Writable(v)
    ensures Inv(Empty(v.runId)) && LiveRun(Empty(v.runId), calls).0 == v
    decreases |v.events|
  {
    EmptyInv(v.runId);
    if |v.events| == 0 {
      NothingYet(v);
      calls := [];
    } else {
      hide Inv, Writable, LiveStep, OrderInv, LiveRun, Empty;
      var w, c := UndoLast(v);
      var before := CallsTo(w);
      RunAppends(Empty(v.runId), before, c);
      calls := before + [c];
    }
  }
}
