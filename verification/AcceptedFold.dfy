/** When the tables an accepted ledger shows are what its log folds to. Reachable ledgers
    always show the fold; accepted tables do exactly when each action's transitions follow
    its proposal in rising order and no true flag is stored as the number 1. */
module AcceptedFold {
  import opened Wrappers
  import opened StateMachine
  import opened Histories
  import opened Contracts
  import opened LedgerTables
  import opened LedgerCalls
  import opened LedgerChecker
  import opened LedgerAcceptance
  import opened LedgerHistory
  import AcceptedHistories
  import CanonicalJson
  import Sql

  // ---------- The fold, action by action ----------

  function ActionOf(e: Event): string {
    LinkedIdentity(e.links).actionId
  }

  function FoldEvent(before: Option<Snapshot>, e: Event, a: string): Option<Snapshot> {
    if ActionOf(e) != a then before
    else if e.kind == ActionProposed then Some(Snapshot(LinkedIdentity(e.links), Proposed, e.seqNo, e.seqNo, [], []))
    else if e.kind == StateTransition && before.Some? then Some(Moved(before.value, e))
    else before
  }

  /** What the log alone tells of one action. */
  function FoldOf(events: seq<Event>, a: string): Option<Snapshot> {
    if |events| == 0 then None
    else FoldEvent(FoldOf(events[..|events| - 1], a), events[|events| - 1], a)
  }

  function ProposedIds(events: seq<Event>): seq<string> {
    if |events| == 0 then []
    else
      ProposedIds(events[..|events| - 1])
      + if events[|events| - 1].kind == ActionProposed then [ActionOf(events[|events| - 1])] else []
  }

  function Find(view: View, a: string): Option<Snapshot> {
    if a in view.operations then Some(view.operations[a]) else None
  }

  lemma ViewStep(view: View, e: Event, a: string)
    ensures e.kind == ActionProposed ==>
              Find(ProposeIn(view, e), a) == FoldEvent(Find(view, a), e, a)
              && ProposeIn(view, e).order == view.order + [ActionOf(e)]
    ensures e.kind == StateTransition ==>
              Find(MoveIn(view, e), a) == FoldEvent(Find(view, a), e, a) && MoveIn(view, e).order == view.order
  {
    hide RecordOfFacts, EvidenceOfFacts;
  }

  lemma {:induction false} FoldByAction(events: seq<Event>, a: string)
    ensures FoldLog(events).order == ProposedIds(events) && Find(FoldLog(events), a) == FoldOf(events, a)
  {
    if |events| > 0 {
      var n := |events| - 1;
      FoldByAction(events[..n], a);
      hide ProposeIn, MoveIn, Find, LinkedIdentity, Moved;
      ViewStep(FoldLog(events[..n]), events[n], a);
    }
  }

  // ---------- What a fold is like ----------

  /** The flags of every history entry are those its event states. */
  predicate FlagsStated(events: seq<Event>, s: Snapshot) {
    forall j | 0 <= j < |s.history| :: FlagsStatedAt(events, s.history[j])
  }

  predicate FlagsStatedAt(events: seq<Event>, p: Persisted) {
    var e := EventAt(events, p.eventSeq);
    e.Some? && EvidenceOfFacts(e.value.evidence) == p.evidence
  }

  /** Any contiguous log folds to rising sequences and stated flags. */
  lemma {:induction false} FoldSound(events: seq<Event>, a: string)
    requires Contiguous(events) && FoldOf(events, a).Some?
    ensures var s := FoldOf(events, a).value;
            SeqsIncrease(s) && FlagsStated(events, s) && LastSeq(s) <= |events|
  {
    hide RecordOfFacts, EvidenceOfFacts, LinkedIdentity, FlagsStatedAt;
    var n := |events| - 1;
    var init, e := events[..n], events[n];
    if FoldOf(init, a).Some? {
      assert Contiguous(init);
      FoldSound(init, a);
      var s := FoldOf(init, a).value;
      forall j | 0 <= j < |s.history| ensures FlagsStatedAt(events, s.history[j]) {
        StatedInMore(events, n, s.history[j]);
      }
      if ActionOf(e) == a && e.kind == StateTransition {
        MovedIsSound(events, s);
      }
    }
  }

  lemma StatedInMore(events: seq<Event>, n: nat, p: Persisted)
    requires n <= |events| && FlagsStatedAt(events[..n], p)
    ensures FlagsStatedAt(events, p)
  {
    hide EvidenceOfFacts;
  }

  lemma MovedIsSound(events: seq<Event>, s: Snapshot)
    requires |events| > 0 && Contiguous(events) && SeqsIncrease(s) && LastSeq(s) < |events|
    requires FlagsStated(events, s)
    ensures var m := Moved(s, events[|events| - 1]);
            SeqsIncrease(m) && FlagsStated(events, m) && LastSeq(m) <= |events|
  {
    hide RecordOfFacts, EvidenceOfFacts;
    var e := events[|events| - 1];
    assert e.seqNo == |events|;
    var m := Moved(s, e);
    forall j | 0 <= j < |m.history| ensures FlagsStatedAt(events, m.history[j]) {
      if j < |s.history| { assert m.history[j] == s.history[j] && FlagsStatedAt(events, s.history[j]); }
    }
    forall j | 0 <= j < |m.history| ensures RisesAt(m, j) {
      if j < |s.history| { assert RisesAt(s, j); }
    }
  }

  // ---------- Folding up to a moment ----------

  /** The attempt ids of the records that entered IN_FLIGHT, in order. */
  function AttemptsIn(history: seq<Persisted>): seq<string> {
    if |history| == 0 then []
    else
      var r := history[|history| - 1].record;
      AttemptsIn(history[..|history| - 1])
      + if r.resulting == InFlight && r.attemptId.Some? then [r.attemptId.value] else []
  }

  /** The snapshot as it was after its first `k` transitions. */
  function Cut(s: Snapshot, k: nat): Snapshot
    requires k <= |s.history|
  {
    Snapshot(s.identity,
             if k == 0 then Proposed else s.history[k - 1].record.resulting,
             s.createdSeq,
             if k == 0 then s.createdSeq else s.history[k - 1].eventSeq,
             AttemptsIn(s.history[..k]),
             s.history[..k])
  }

  predicate TellsEntry(events: seq<Event>, s: Snapshot, p: Persisted) {
    && 1 <= p.eventSeq <= |events|
    && var e := events[p.eventSeq - 1];
    && e.kind == StateTransition && LinkedIdentity(e.links) == s.identity && RecordOfFacts(e.evidence) == p.record
  }

  predicate HasEntry(s: Snapshot, n: int) {
    exists j | 0 <= j < |s.history| :: s.history[j].eventSeq == n
  }

  /** The event at position `n` belongs to the snapshot or is not about its action. */
  predicate Accounted(events: seq<Event>, s: Snapshot, n: nat)
    requires n < |events|
  {
    ActionOf(events[n]) == s.identity.actionId ==>
      && (events[n].kind == ActionProposed ==> n + 1 == s.createdSeq)
      && (events[n].kind == StateTransition ==> HasEntry(s, n + 1))
  }

  /** The log tells of the snapshot's proposal, of each of its transitions, and of no
      other proposal or transition of its action. */
  predicate Tells(events: seq<Event>, s: Snapshot) {
    && 1 <= s.createdSeq <= |events|
    && events[s.createdSeq - 1].kind == ActionProposed && LinkedIdentity(events[s.createdSeq - 1].links) == s.identity
    && (forall j | 0 <= j < |s.history| :: TellsEntry(events, s, s.history[j]))
    && (forall n | 0 <= n < |events| :: Accounted(events, s, n))
  }

  lemma {:induction false} SeqsRise(s: Snapshot, i: nat, j: nat)
    requires SeqsIncrease(s) && i <= j < |s.history|
    ensures s.createdSeq < s.history[i].eventSeq <= s.history[j].eventSeq
    ensures i < j ==> s.history[i].eventSeq < s.history[j].eventSeq
  {
    assert RisesAt(s, j);
    if j > 0 {
      if i < j { SeqsRise(s, i, j - 1); } else { SeqsRise(s, j - 1, j - 1); }
    }
  }

  /** The transitions up to sequence number `n` are the first `k`. */
  predicate CutsAt(s: Snapshot, n: int, k: nat) {
    && k <= |s.history|
    && (forall j | 0 <= j < k :: s.history[j].eventSeq <= n)
    && (forall j | k <= j < |s.history| :: s.history[j].eventSeq > n)
  }

  lemma EarlierCut(s: Snapshot, n: nat, k: nat)
    requires SeqsIncrease(s) && n > 0 && CutsAt(s, n, k)
    ensures if HasEntry(s, n) then k > 0 && s.history[k - 1].eventSeq == n && CutsAt(s, n - 1, k - 1)
            else CutsAt(s, n - 1, k)
  {
    if HasEntry(s, n) {
      var j :| 0 <= j < |s.history| && s.history[j].eventSeq == n;
      assert j < k;
      SeqsRise(s, j, k - 1);
      assert j == k - 1;
      forall i | 0 <= i < k - 1 ensures s.history[i].eventSeq <= n - 1 { SeqsRise(s, i, k - 1); }
    }
  }

  lemma CutMoves(events: seq<Event>, s: Snapshot, k: nat)
    requires Contiguous(events) && k < |s.history|
    requires TellsEntry(events, s, s.history[k]) && FlagsStatedAt(events, s.history[k])
    ensures Moved(Cut(s, k), events[s.history[k].eventSeq - 1]) == Cut(s, k + 1)
  {
    hide RecordOfFacts, EvidenceOfFacts, LinkedIdentity;
    assert s.history[..k + 1] == s.history[..k] + [s.history[k]];
    assert s.history[..k + 1][..k] == s.history[..k];
  }

  /** Up to any moment the log folds to the snapshot cut at that moment. */
  lemma {:induction false} FoldCut(events: seq<Event>, s: Snapshot, n: nat, k: nat)
    requires Contiguous(events) && Tells(events, s) && FlagsStated(events, s) && SeqsIncrease(s)
    requires n <= |events| && CutsAt(s, n, k)
    ensures FoldOf(events[..n], s.identity.actionId) == if n < s.createdSeq then None else Some(Cut(s, k))
    decreases n
  {
    if n > 0 {
      hide CutsAt, SeqsIncrease, Accounted, FlagsStatedAt, Moved, Cut, HasEntry, LinkedIdentity;
      EarlierCut(s, n, k);
      var before := if HasEntry(s, n) then k - 1 else k;
      FoldCut(events, s, n - 1, before);
      assert events[..n][..n - 1] == events[..n - 1];
      assert Accounted(events, s, n - 1);
      StepOfCut(events, s, n, k);
    }
  }

  lemma StepOfCut(events: seq<Event>, s: Snapshot, n: nat, k: nat)
    requires Contiguous(events) && Tells(events, s) && FlagsStated(events, s) && SeqsIncrease(s)
    requires 0 < n <= |events| && CutsAt(s, n, k) && (HasEntry(s, n) ==> k > 0 && s.history[k - 1].eventSeq == n)
    ensures var before := if HasEntry(s, n) then k - 1 else k;
            before <= |s.history|
            && FoldEvent(if n - 1 < s.createdSeq then None else Some(Cut(s, before)),
                         events[n - 1], s.identity.actionId)
               == if n < s.createdSeq then None else Some(Cut(s, k))
  {
    hide Moved, Cut, LinkedIdentity, FlagsStatedAt, TellsEntry, Accounted, HasEntry, FoldEvent;
    if HasEntry(s, n) {
      SeqsRise(s, k - 1, k - 1);
      StepAtEntry(events, s, k - 1);
    } else if n == s.createdSeq {
      if k > 0 { SeqsRise(s, k - 1, k - 1); }
      StepAtProposal(events, s);
    } else {
      StepElsewhere(events, s, n, if n - 1 < s.createdSeq then None else Some(Cut(s, k)));
    }
  }

  lemma StepAtEntry(events: seq<Event>, s: Snapshot, k: nat)
    requires Contiguous(events) && k < |s.history|
    requires TellsEntry(events, s, s.history[k]) && FlagsStatedAt(events, s.history[k])
    ensures FoldEvent(Some(Cut(s, k)), events[s.history[k].eventSeq - 1], s.identity.actionId) == Some(Cut(s, k + 1))
  {
    CutMoves(events, s, k);
    hide Moved, Cut, LinkedIdentity, FlagsStatedAt, RecordOfFacts;
  }

  lemma StepAtProposal(events: seq<Event>, s: Snapshot)
    requires Contiguous(events) && 1 <= s.createdSeq <= |events|
    requires events[s.createdSeq - 1].kind == ActionProposed
             && LinkedIdentity(events[s.createdSeq - 1].links) == s.identity
    ensures FoldEvent(None, events[s.createdSeq - 1], s.identity.actionId) == Some(Cut(s, 0))
  {
    hide LinkedIdentity, Moved;
    assert s.history[..0] == [];
  }

  lemma StepElsewhere(events: seq<Event>, s: Snapshot, n: nat, before: Option<Snapshot>)
    requires 0 < n <= |events| && Accounted(events, s, n - 1) && n != s.createdSeq && !HasEntry(s, n)
    ensures FoldEvent(before, events[n - 1], s.identity.actionId) == before
  {
    hide LinkedIdentity, Moved, HasEntry;
  }

  // ---------- The order of the operations ----------

  predicate StrictCreated(rows: seq<OperationRow>) {
    forall i, j | 0 <= i < j < |rows| :: rows[i].createdSeq < rows[j].createdSeq
  }

  predicate CreatedApart(rows: seq<OperationRow>) {
    forall i, j | 0 <= i < j < |rows| :: rows[i].createdSeq != rows[j].createdSeq
  }

  lemma InsertedOperation(rows: seq<OperationRow>, row: OperationRow, r: OperationRow)
    ensures r in Sql.InsertOrdered(rows, row, OperationBefore) <==> r == row || r in rows
  {
    hide OperationBefore;
    var more := Sql.InsertOrdered(rows, row, OperationBefore);
    Sql.InsertOrderedMembers(rows, row, OperationBefore);
    assert r in multiset(more) <==> r in multiset(rows) + multiset{row};
  }

  lemma {:induction false} InsertStrict(rows: seq<OperationRow>, row: OperationRow)
    requires StrictCreated(rows) && forall r | r in rows :: r.createdSeq != row.createdSeq
    ensures StrictCreated(Sql.InsertOrdered(rows, row, OperationBefore))
  {
    if |rows| > 0 && OperationBefore(row, rows[|rows| - 1]) {
      var init, last := rows[..|rows| - 1], rows[|rows| - 1];
      InsertStrict(init, row);
      var front := Sql.InsertOrdered(init, row, OperationBefore);
      forall i | 0 <= i < |front| ensures front[i].createdSeq < last.createdSeq {
        InsertedOperation(init, row, front[i]);
        if front[i] != row {
          var k :| 0 <= k < |init| && init[k] == front[i];
          assert rows[k].createdSeq < rows[|rows| - 1].createdSeq;
        }
      }
    }
  }

  lemma {:induction false} OrderedStrict(rows: seq<OperationRow>)
    requires CreatedApart(rows)
    ensures StrictCreated(Sql.OrderBy(rows, OperationBefore))
  {
    if |rows| > 0 {
      var init, last := rows[..|rows| - 1], rows[|rows| - 1];
      assert CreatedApart(init);
      OrderedStrict(init);
      Sql.OrderByMembers(init, OperationBefore);
      var sorted := Sql.OrderBy(init, OperationBefore);
      forall r | r in sorted ensures r.createdSeq != last.createdSeq {
        var k :| 0 <= k < |init| && init[k] == r;
        assert rows[k].createdSeq != rows[|rows| - 1].createdSeq;
      }
      InsertStrict(sorted, last);
    }
  }

  predicate Rising(xs: seq<int>) {
    forall i, j | 0 <= i < j < |xs| :: xs[i] < xs[j]
  }

  /** A set of numbers has one rising listing. */
  lemma {:induction false} RisingUnique(xs: seq<int>, ys: seq<int>)
    requires Rising(xs) && Rising(ys) && forall n :: n in xs <==> n in ys
    ensures xs == ys
  {
    if |xs| > 0 { LastIsIn(xs, ys); }
    if |ys| > 0 { LastIsIn(ys, xs); }
    if |xs| > 0 {
      var x, y := xs[..|xs| - 1], ys[..|ys| - 1];
      assert Rising(x) && Rising(y);
      forall n ensures n in x <==> n in y {
        InitMember(xs, n);
        InitMember(ys, n);
      }
      hide Rising;
      RisingUnique(x, y);
      assert xs == x + [xs[|xs| - 1]] && ys == y + [ys[|ys| - 1]];
    }
  }

  lemma LastIsIn(xs: seq<int>, ys: seq<int>)
    requires |xs| > 0 && Rising(ys) && forall n | n in xs :: n in ys
    ensures |ys| > 0 && xs[|xs| - 1] <= ys[|ys| - 1]
  {
    var n := xs[|xs| - 1];
    assert n in ys;
    var i :| 0 <= i < |ys| && ys[i] == n;
  }

  lemma InitMember(xs: seq<int>, n: int)
    requires |xs| > 0 && Rising(xs)
    ensures n in xs[..|xs| - 1] <==> n in xs && n != xs[|xs| - 1]
  {
    var init := xs[..|xs| - 1];
    if n in init {
      var i :| 0 <= i < |init| && init[i] == n;
      assert xs[i] < xs[|xs| - 1];
    }
    assert xs == init + [xs[|xs| - 1]];
  }

  function ProposedSeqs(events: seq<Event>): seq<int> {
    if |events| == 0 then []
    else
      ProposedSeqs(events[..|events| - 1])
      + if events[|events| - 1].kind == ActionProposed then [events[|events| - 1].seqNo] else []
  }

  function CreatedSeqs(rows: seq<OperationRow>): seq<int> {
    seq(|rows|, i requires 0 <= i < |rows| => rows[i].createdSeq)
  }

  lemma {:induction false} ProposedMember(events: seq<Event>, n: int)
    requires Contiguous(events)
    ensures n in ProposedSeqs(events) <==> 1 <= n <= |events| && events[n - 1].kind == ActionProposed
  {
    if |events| > 0 {
      var init := events[..|events| - 1];
      assert Contiguous(init);
      ProposedMember(init, n);
    }
  }

  lemma {:induction false} ProposedRise(events: seq<Event>)
    requires Contiguous(events)
    ensures Rising(ProposedSeqs(events))
  {
    if |events| > 0 {
      var init := events[..|events| - 1];
      assert Contiguous(init);
      ProposedRise(init);
      var seqs := ProposedSeqs(init);
      forall i | 0 <= i < |seqs| ensures seqs[i] < |events| {
        ProposedMember(init, seqs[i]);
      }
    }
  }

  lemma {:induction false} ProposedAt(events: seq<Event>, i: nat)
    requires Contiguous(events)
    ensures |ProposedIds(events)| == |ProposedSeqs(events)|
    ensures i < |ProposedSeqs(events)| ==>
              var n := ProposedSeqs(events)[i]; 1 <= n <= |events| && ProposedIds(events)[i] == ActionOf(events[n - 1])
  {
    if |events| > 0 {
      hide LinkedIdentity;
      var init := events[..|events| - 1];
      assert Contiguous(init);
      ProposedAt(init, i);
    }
  }

  lemma CreatedListing(t: Tables, runId: string)
    requires Keyed(t) && Accepted(t, runId)
    ensures CreatedSeqs(OrderedOperations(t)) == ProposedSeqs(TheEvents(t))
  {
    hide Accepted, Keyed, EventsOf, OperationBefore, ProposedSeqs;
    AcceptedLog(t, runId);
    var events := TheEvents(t);
    var seqs := ProposedSeqs(events);
    forall n ensures n in seqs <==> 1 <= n <= |events| && events[n - 1].kind == ActionProposed {
      ProposedMember(events, n);
    }
    ProposedRise(events);
    OperationsApart(t, runId);
    OrderedStrict(t.operations);
    CreatedMembers(t, runId, seqs);
    RisingUnique(CreatedSeqs(OrderedOperations(t)), seqs);
  }

  /** The log proposes the operations in the order they are listed in. */
  lemma OrderOfAccepted(t: Tables, runId: string)
    requires Keyed(t) && Accepted(t, runId)
    ensures var rows := OrderedOperations(t);
            var ids := ProposedIds(TheEvents(t));
            |ids| == |rows| && forall i | 0 <= i < |rows| :: ids[i] == rows[i].identity.actionId
  {
    hide Accepted, Keyed, EventsOf, LinkedIdentity, OrderedOperations, ProposedIds, ProposedSeqs, Contiguous;
    AcceptedLog(t, runId);
    var events := TheEvents(t);
    var rows := OrderedOperations(t);
    CreatedListing(t, runId);
    ProposedAt(events, 0);
    OrderedRows(t);
    forall i | 0 <= i < |rows| ensures ProposedIds(events)[i] == rows[i].identity.actionId {
      assert ProposedSeqs(events)[i] == CreatedSeqs(rows)[i] == rows[i].createdSeq;
      ProposedAt(events, i);
      assert rows[i] in t.operations;
      OperationProposed(t, runId, rows[i]);
    }
  }

  lemma OrderedRows(t: Tables)
    ensures forall r | r in OrderedOperations(t) :: r in t.operations
  {
    hide OperationBefore;
    Sql.OrderByMembers(t.operations, OperationBefore);
  }

  lemma OperationsApart(t: Tables, runId: string)
    requires Keyed(t) && Accepted(t, runId)
    ensures CreatedApart(t.operations)
  {
    hide Accepted, Keyed;
    forall i, j | 0 <= i < j < |t.operations| ensures t.operations[i].createdSeq != t.operations[j].createdSeq {
      CreatedSeqsDistinct(t, runId, i, j);
    }
  }

  lemma CreatedMembers(t: Tables, runId: string, seqs: seq<int>)
    requires Keyed(t) && Accepted(t, runId)
    requires forall n :: n in seqs <==> 1 <= n <= |TheEvents(t)| && TheEvents(t)[n - 1].kind == ActionProposed
    ensures forall n :: n in CreatedSeqs(OrderedOperations(t)) <==> n in seqs
  {
    hide Accepted, Keyed, EventsOf, OperationBefore;
    AcceptedLog(t, runId);
    ExactAccounting(t, runId);
    Sql.OrderByMembers(t.operations, OperationBefore);
    var rows := OrderedOperations(t);
    forall n ensures n in CreatedSeqs(rows) <==> n in seqs {
      KindMembers(TheEvents(t), ActionProposed, n);
      if n in CreatedSeqs(rows) {
        var i :| 0 <= i < |rows| && CreatedSeqs(rows)[i] == n;
        assert rows[i] in t.operations && CreatedSeq(rows[i]) == n;
      }
      if n in seqs {
        var r :| r in t.operations && CreatedSeq(r) == n;
        var i :| 0 <= i < |rows| && rows[i] == r;
        assert CreatedSeqs(rows)[i] == n;
      }
    }
  }

  lemma KindMembers(events: seq<Event>, kind: EventKind, n: int)
    requires Contiguous(events)
    ensures n in SeqsOfKind(events, kind) <==> 1 <= n <= |events| && events[n - 1].kind == kind
  {
    if 1 <= n <= |events| { assert events[n - 1] in events; }
  }

  lemma OperationProposed(t: Tables, runId: string, r: OperationRow)
    requires Keyed(t) && Accepted(t, runId) && r in t.operations
    ensures 1 <= r.createdSeq <= |TheEvents(t)|
    ensures TheEvents(t)[r.createdSeq - 1].kind == ActionProposed
    ensures LinkedIdentity(TheEvents(t)[r.createdSeq - 1].links) == r.identity
  {
    hide Accepted, Keyed, EventsOf, SnapshotOf, TransitionsAccepted, AttemptsAccepted, Legal, After, LinkedIdentity;
    AcceptedOperation(t, runId, r);
    AcceptedParts(t, runId);
    LinkedMatches(TheEvents(t)[r.createdSeq - 1], r.identity);
  }

  lemma LinkedMatches(e: Event, id: Identity)
    requires MatchesIdentity(e, id)
    ensures LinkedIdentity(e.links) == id
  {
  }

  // ---------- What the log tells of an accepted operation ----------

  lemma EntryTold(t: Tables, events: seq<Event>, row: OperationRow, s: Snapshot, j: nat)
    requires Describes(t, row, s) && SnapshotAccepted(t, events, s) && j < |s.history|
    ensures TellsEntry(events, s, s.history[j])
  {
    hide RecordOfFacts, LinkedIdentity, Legal, After, EvidenceEquals, AttemptsAccepted, IsProposal, TransitionFacts;
    var p := s.history[j];
    assert TransitionAccepted(events, s, p);
    assert p == PersistedOfRow(TransitionsOf(t, row.identity.actionId)[j]);
    AcceptedHistories.AcceptedRecord(events, s, p);
    LinkedMatches(events[p.eventSeq - 1], s.identity);
  }

  lemma EventAccounted(t: Tables, runId: string, row: OperationRow, n: nat)
    requires Keyed(t) && Accepted(t, runId) && row in t.operations && n < |TheEvents(t)|
    requires SnapshotOf(t, row.identity.actionId).Ok? && Describes(t, row, TheSnapshot(t, row))
    ensures Accounted(TheEvents(t), TheSnapshot(t, row), n)
  {
    hide Accepted, EventsOf, SnapshotOf, LinkedIdentity, Legal, After, References, TransitionsOf;
    AcceptedLog(t, runId);
    var e := TheEvents(t)[n];
    if ActionOf(e) == row.identity.actionId && (e.kind == ActionProposed || e.kind == StateTransition) {
      var owner := ManagedEventOwner(t, runId, e);
      ReferenceKind(t, runId, owner, e.seqNo);
      LinkedMatches(e, owner.identity);
      FindOperationKeyed(t, owner);
      FindOperationKeyed(t, row);
      if e.kind == StateTransition {
        var r :| r in t.transitions && r.actionId == row.identity.actionId && r.eventSeq == e.seqNo;
        RowIsEntry(t, row, TheSnapshot(t, row), r);
      }
    }
  }

  lemma RowIsEntry(t: Tables, row: OperationRow, s: Snapshot, r: TransitionRow)
    requires Describes(t, row, s) && r in t.transitions && r.actionId == row.identity.actionId
    ensures HasEntry(s, r.eventSeq)
  {
    hide Legal, After, TransitionsOf, Attempts, AttemptsOf;
    var rows := TransitionsOf(t, row.identity.actionId);
    TransitionsOfMembers(t, row.identity.actionId);
    var j :| 0 <= j < |rows| && rows[j] == r;
    assert s.history[j].eventSeq == r.eventSeq;
  }

  lemma AcceptedTells(t: Tables, runId: string, row: OperationRow)
    requires Keyed(t) && Accepted(t, runId) && row in t.operations
    ensures SnapshotOf(t, row.identity.actionId).Ok? && Tells(TheEvents(t), TheSnapshot(t, row))
  {
    hide Accepted, Keyed, EventsOf, SnapshotOf, LinkedIdentity, Legal, After, TellsEntry, Accounted, TransitionsOf,
         AttemptsOf, SnapshotAccepted;
    AcceptedOperation(t, runId, row);
    AcceptedLog(t, runId);
    OperationProposed(t, runId, row);
    var s := TheSnapshot(t, row);
    forall j | 0 <= j < |s.history| ensures TellsEntry(TheEvents(t), s, s.history[j]) {
      EntryTold(t, TheEvents(t), row, s, j);
    }
    forall n | 0 <= n < |TheEvents(t)| ensures Accounted(TheEvents(t), s, n) {
      EventAccounted(t, runId, row, n);
    }
  }

  lemma {:induction false} AttemptsOfHistory(rows: seq<TransitionRow>)
    ensures AttemptsIn(PersistedOfRows(rows)) == Attempts(EntriesOfRows(rows))
  {
    if |rows| > 0 {
      var n := |rows| - 1;
      AttemptsOfHistory(rows[..n]);
      assert PersistedOfRows(rows)[..n] == PersistedOfRows(rows[..n]);
      assert EntriesOfRows(rows)[..n] == EntriesOfRows(rows[..n]);
    }
  }

  /** An accepted snapshot is its own cut behind its last transition. */
  lemma WholeCut(t: Tables, events: seq<Event>, row: OperationRow, s: Snapshot)
    requires Describes(t, row, s) && SnapshotAccepted(t, events, s)
    ensures Cut(s, |s.history|) == s
  {
    hide Legal, After, AttemptsAccepted, TransitionsAccepted, IsProposal, TransitionsOf, AttemptsOf, Attempts,
         AttemptsIn;
    var rows := TransitionsOf(t, row.identity.actionId);
    MachineOfLegal(row.identity, EntriesOfRows(rows));
    AttemptsOfHistory(rows);
    assert s.history[..|s.history|] == s.history;
    if |rows| > 0 {
      AcceptedHistories.EntryAt(rows, |rows| - 1);
    }
  }

  // ---------- When accepted tables show the fold ----------

  /** The snapshot's transitions follow its proposal in rising order, with their flags as
      the log states them. */
  predicate InOrderAsStated(events: seq<Event>, s: Snapshot) {
    SeqsIncrease(s) && FlagsStated(events, s)
  }

  lemma SnapshotFolds(t: Tables, events: seq<Event>, row: OperationRow, s: Snapshot)
    requires Contiguous(events) && Describes(t, row, s) && SnapshotAccepted(t, events, s)
    requires Tells(events, s) && InOrderAsStated(events, s)
    ensures FoldOf(events, row.identity.actionId) == Some(s)
  {
    hide Contiguous, Describes, SnapshotAccepted, Tells, SeqsIncrease, FlagsStated, FoldOf, CutsAt, Cut;
    WholeCut(t, events, row, s);
    CutAtEnd(events, s);
    FoldCut(events, s, |events|, |s.history|);
    assert events[..|events|] == events;
    SnapshotIdentity(t, row, s);
  }

  lemma OperationFolds(t: Tables, runId: string, row: OperationRow)
    requires Keyed(t) && Accepted(t, runId) && row in t.operations
    ensures SnapshotOf(t, row.identity.actionId).Ok?
    ensures InOrderAsStated(TheEvents(t), TheSnapshot(t, row)) ==>
              FoldOf(TheEvents(t), row.identity.actionId) == Some(TheSnapshot(t, row))
  {
    hide Accepted, Keyed, EventsOf, SnapshotOf, SnapshotAccepted, Describes, Tells, InOrderAsStated, FoldOf, Contiguous,
         TicksOrdered;
    AcceptedOperation(t, runId, row);
    AcceptedTells(t, runId, row);
    AcceptedLog(t, runId);
    if InOrderAsStated(TheEvents(t), TheSnapshot(t, row)) {
      SnapshotFolds(t, TheEvents(t), row, TheSnapshot(t, row));
    }
  }

  lemma SnapshotIdentity(t: Tables, row: OperationRow, s: Snapshot)
    requires Describes(t, row, s)
    ensures s.identity == row.identity
  {
    hide Legal, After, TransitionsOf, AttemptsOf, Attempts;
  }

  lemma CutAtEnd(events: seq<Event>, s: Snapshot)
    requires Tells(events, s)
    ensures CutsAt(s, |events|, |s.history|) && s.createdSeq <= |events|
  {
    hide Accounted, LinkedIdentity;
    forall j | 0 <= j < |s.history| ensures s.history[j].eventSeq <= |events| {
      assert TellsEntry(events, s, s.history[j]);
    }
  }

  /** The listed snapshots, one by one. */
  lemma ListedSnapshot(t: Tables, runId: string, i: nat)
    requires Keyed(t) && Accepted(t, runId) && i < |OrderedOperations(t)|
    ensures OrderedOperations(t)[i] in t.operations
    ensures SnapshotOf(t, OrderedOperations(t)[i].identity.actionId).Ok?
    ensures Snapshots(t).Ok? && |Snapshots(t).value| == |OrderedOperations(t)|
    ensures Snapshots(t).value[i] == TheSnapshot(t, OrderedOperations(t)[i])
  {
    hide Accepted, Keyed, SnapshotOf, SnapshotsOfRows, OrderedOperations, EventsOf, SnapshotAccepted, Snapshots;
    OrderedRows(t);
    AcceptedParts(t, runId);
    SnapshotsOfRowsExact(t, OrderedOperations(t));
    assert OrderedOperations(t)[i] in OrderedOperations(t);
  }

  lemma ListedAll(t: Tables, runId: string)
    requires Keyed(t) && Accepted(t, runId)
    ensures Snapshots(t).Ok? && |Snapshots(t).value| == |OrderedOperations(t)|
  {
    hide Accepted, Keyed, SnapshotOf, SnapshotsOfRows, OrderedOperations, EventsOf, SnapshotAccepted, Snapshots;
    AcceptedParts(t, runId);
    SnapshotsOfRowsExact(t, OrderedOperations(t));
  }

  /** Accepted tables show exactly what their log folds to if and only if each listed
      action's transitions follow its proposal in rising order with their flags as the log
      states them. */
  lemma AcceptedShowsFold(t: Tables, runId: string)
    requires Keyed(t) && Accepted(t, runId)
    ensures Snapshots(t).Ok?
    ensures ShowsFold(t) <==> forall s | s in Snapshots(t).value :: InOrderAsStated(TheEvents(t), s)
  {
    hide Accepted, Keyed, SnapshotOf, Snapshots, OrderedOperations, EventsOf, InOrderAsStated, FoldLog, ProposedIds,
         FoldOf;
    AcceptedLog(t, runId);
    ListedAll(t, runId);
    var events, ss := TheEvents(t), Snapshots(t).value;
    if forall s | s in ss :: InOrderAsStated(events, s) {
      InOrderShows(t, runId);
    }
    if ShowsFold(t) {
      forall s | s in ss ensures InOrderAsStated(events, s) {
        ShownInOrder(t, s);
      }
    }
  }

  lemma ShownInOrder(t: Tables, s: Snapshot)
    requires ShowsFold(t) && Contiguous(TheEvents(t)) && s in Snapshots(t).value
    ensures InOrderAsStated(TheEvents(t), s)
  {
    hide EventsOf, Snapshots, FoldLog, FoldOf, SeqsIncrease, FlagsStated, Contiguous;
    var view := FoldLog(TheEvents(t));
    var i :| 0 <= i < |view.order| && ViewSnapshots(view)[i] == s;
    FoldByAction(TheEvents(t), view.order[i]);
    FoldSound(TheEvents(t), view.order[i]);
  }

  lemma InOrderShows(t: Tables, runId: string)
    requires Keyed(t) && Accepted(t, runId) && Snapshots(t).Ok?
    requires forall s | s in Snapshots(t).value :: InOrderAsStated(TheEvents(t), s)
    ensures ShowsFold(t)
  {
    hide Accepted, Keyed, SnapshotOf, Snapshots, OrderedOperations, EventsOf, InOrderAsStated, FoldLog, ProposedIds,
         FoldOf, SnapshotsOfRows;
    AcceptedLog(t, runId);
    ListedAll(t, runId);
    OrderOfAccepted(t, runId);
    var events, ss, rows := TheEvents(t), Snapshots(t).value, OrderedOperations(t);
    var view := FoldLog(events);
    FoldByAction(events, "");
    forall i | 0 <= i < |rows| ensures view.order[i] in view.operations && view.operations[view.order[i]] == ss[i] {
      ListedSnapshot(t, runId, i);
      OperationFolds(t, runId, rows[i]);
      assert ss[i] in ss;
      FoldByAction(events, rows[i].identity.actionId);
    }
    assert ViewSnapshots(view) == ss;
  }

  /** A compared flag reads as true exactly when it is true and not stored as a number. */
  lemma ComparedFlag(m: map<string, CanonicalJson.Json>, r: Record, e: Evidence, k: FactKey)
    requires EvidenceEquals(m, TransitionFacts(r, e)) && FactValue(r, e, k).Bool?
    ensures FactFlag(m, k) <==> FactValue(r, e, k).flag && StoredTrue(m, k)
  {
    hide TransitionFacts, KeyName, StateName, CauseName;
    FactEntries(r, e);
    assert KeyName(k) in m;
    assert EqualsFact(m[KeyName(k)], FactValue(r, e, k));
  }

  predicate StoredTrue(m: map<string, CanonicalJson.Json>, k: FactKey) {
    KeyName(k) in m && m[KeyName(k)] == CanonicalJson.Bool(true)
  }

  /** Compared flags are stated exactly when no true flag is stored as the number 1. */
  lemma StatedFlags(m: map<string, CanonicalJson.Json>, r: Record, e: Evidence)
    requires EvidenceEquals(m, TransitionFacts(r, e)) && r.evidenceId == e.evidenceId && r.cause == e.cause
    ensures EvidenceOfFacts(m) == e <==>
              forall k: FactKey | FactValue(r, e, k) == CanonicalJson.Bool(true) :: StoredTrue(m, k)
  {
    hide TransitionFacts, KeyName, StateName, CauseName, StateOfName, CauseOfName, FactText, FactFlag, StoredTrue,
         EvidenceEquals;
    FactsReadBack(r, e);
    AcceptedHistories.ComparedText(m, r, e, EvidenceIdKey);
    AcceptedHistories.ComparedText(m, r, e, CauseKey);
    ComparedFlag(m, r, e, FreshKey);
    ComparedFlag(m, r, e, AuthoritativeKey);
    ComparedFlag(m, r, e, ExactIdentityKey);
    ComparedFlag(m, r, e, PostconditionKey);
    ComparedFlag(m, r, e, CardinalityKey);
    assert FactFlag(m, FreshKey) == e.isFresh <==> (e.isFresh ==> StoredTrue(m, FreshKey));
  }

  /** Every true flag of a history entry stands in its event as a Boolean. */
  predicate TrueFlagsStored(events: seq<Event>, p: Persisted) {
    var e := EventAt(events, p.eventSeq);
    && e.Some?
    && forall k: FactKey | FactValue(p.record, p.evidence, k) == CanonicalJson.Bool(true) ::
         StoredTrue(e.value.evidence, k)
  }

  predicate TrueFlagsKept(events: seq<Event>, s: Snapshot) {
    forall j | 0 <= j < |s.history| :: TrueFlagsStored(events, s.history[j])
  }

  lemma EntryFlags(events: seq<Event>, s: Snapshot, p: Persisted)
    requires TransitionAccepted(events, s, p)
    requires p.record.evidenceId == p.evidence.evidenceId && p.record.cause == p.evidence.cause
    ensures FlagsStatedAt(events, p) <==> TrueFlagsStored(events, p)
  {
    hide EvidenceEquals, EvidenceOfFacts, TransitionFacts, FactValue, StoredTrue, MatchesIdentity;
    StatedFlags(EventAt(events, p.eventSeq).value.evidence, p.record, p.evidence);
  }

  lemma SnapshotFlags(t: Tables, runId: string, s: Snapshot)
    requires Keyed(t) && Accepted(t, runId) && Snapshots(t).Ok? && s in Snapshots(t).value
    ensures FlagsStated(TheEvents(t), s) <==> TrueFlagsKept(TheEvents(t), s)
  {
    hide Accepted, Keyed, SnapshotOf, Snapshots, EventsOf, FlagsStatedAt, TrueFlagsStored, Legal, After,
         AttemptsAccepted, TransitionAccepted, IsProposal, TransitionsOf, AttemptsOf, Attempts;
    AcceptedLog(t, runId);
    var row := AcceptedSnapshot(t, runId, s);
    AcceptedOperation(t, runId, row);
    forall j | 0 <= j < |s.history|
      ensures FlagsStatedAt(TheEvents(t), s.history[j]) <==> TrueFlagsStored(TheEvents(t), s.history[j])
    {
      assert s.history[j] == PersistedOfRow(TransitionsOf(t, row.identity.actionId)[j]);
      assert TransitionAccepted(TheEvents(t), s, s.history[j]);
      EntryFlags(TheEvents(t), s, s.history[j]);
    }
  }

  /** Accepted tables show exactly what their log folds to if and only if every action's
      transitions follow its proposal in rising order and every true flag stands in the
      log as a Boolean. */
  lemma AcceptedFoldExactly(t: Tables, runId: string)
    requires Keyed(t) && Accepted(t, runId)
    ensures Snapshots(t).Ok?
    ensures ShowsFold(t) <==>
              forall s | s in Snapshots(t).value :: SeqsIncrease(s) && TrueFlagsKept(TheEvents(t), s)
  {
    hide Accepted, Keyed, Snapshots, EventsOf, FlagsStated, TrueFlagsKept, ShowsFold, SeqsIncrease;
    AcceptedShowsFold(t, runId);
    AcceptedLog(t, runId);
    forall s | s in Snapshots(t).value
      ensures InOrderAsStated(TheEvents(t), s) <==> SeqsIncrease(s) && TrueFlagsKept(TheEvents(t), s)
    {
      SnapshotFlags(t, runId, s);
    }
  }
}
