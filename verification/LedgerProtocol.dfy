/** Calls on a ledger and their outcomes, and one call on a stored ledger. */
module LedgerProtocol {
  import opened StateMachine
  import opened Contracts
  import opened LedgerTables
  import opened LedgerCalls
  import opened LedgerChecker

  datatype Call =
    | AppendCall(event: Event)
    | RegisterCall(identity: Identity, tick: nat)
    | TransitionCall(actionId: string, target: State, evidence: Evidence, candidate: Identity, tick: nat)
    | DispatchCall(actionId: string, attemptId: string, evidence: Evidence, candidate: Identity, tick: nat)
    | NextSeqCall
    | EventsCall
    | OperationCall(actionId: string)
    | OperationsCall
    | ValidateCall
    | CloseCall
    | ReopenCall(runId: string)

  datatype Outcome =
    | Done
    | Sequence(n: int)
    | Appended(event: Event)
    | Registered(snapshot: Snapshot)
    | Moved(persisted: Persisted)
    | Permitted(permit: Permit)
    | Log(events: seq<Event>)
    | Operation(snapshot: Snapshot)
    | Operations(snapshots: seq<Snapshot>)
    | Refused(error: LedgerError)

  /** An open or closed handle on stored tables. */
  datatype Ledger = Ledger(runId: string, closed: bool, tables: Tables)

  function Create(runId: string): Ledger {
    Ledger(runId, false, FreshTables(runId))
  }

  /** One call. `ReopenCall` opens the stored tables anew, as after a restart. */
  function Perform(l: Ledger, c: Call): (Ledger, Outcome) {
    var t := l.tables;
    if c.ReopenCall? then
      if Accepted(t, c.runId) then (Ledger(c.runId, false, t), Done) else (l.(closed := true), Refused(Integrity))
    else if c.CloseCall? then (l.(closed := true), Done)
    else if l.closed then (l, Refused(ClosedLedger))
    else
      match c
      case AppendCall(e) =>
        (match Append(t, e)
         case Ok(stored) => (l.(tables := stored), Appended(e))
         case Err(error) => (l, Refused(error)))
      case RegisterCall(id, tick) =>
        (match Register(t, id, tick)
         case Ok((stored, s)) => (l.(tables := stored), Registered(s))
         case Err(error) => (l, Refused(error)))
      case TransitionCall(a, target, e, candidate, tick) =>
        var (stored, r) := Transition(t, a, target, e, candidate, tick);
        (l.(tables := stored), if r.Ok? then Moved(r.value) else Refused(r.error))
      case DispatchCall(a, attemptId, e, candidate, tick) =>
        var (stored, r) := Dispatch(t, l.runId, a, attemptId, e, candidate, tick);
        (l.(tables := stored), if r.Ok? then Permitted(r.value) else Refused(r.error))
      case NextSeqCall => (l, Sequence(NextSeq(t)))
      case EventsCall =>
        (l, match EventsOf(t) case Ok(events) => Log(events) case Err(error) => Refused(error))
      case OperationCall(a) =>
        (l, match SnapshotOf(t, a) case Ok(s) => Operation(s) case Err(error) => Refused(error))
      case OperationsCall =>
        (l, match Snapshots(t) case Ok(ss) => Operations(ss) case Err(error) => Refused(error))
      case ValidateCall => (l, if Accepted(t, l.runId) then Done else Refused(Integrity))
      case _ => (l, Done)
  }

  /** The outcomes of a sequence of calls, and the ledger they lead to. */
  function Run(l: Ledger, calls: seq<Call>): (Ledger, seq<Outcome>) {
    if |calls| == 0 then (l, [])
    else
      var (before, outcomes) := Run(l, calls[..|calls| - 1]);
      var (after, outcome) := Perform(before, calls[|calls| - 1]);
      (after, outcomes + [outcome])
  }
}
