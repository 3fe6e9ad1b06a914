/** When an event may be appended: its own form, its kind, and its place behind the events
    already stored, told by the rows. */
module Appending {
  import opened Wrappers
  import opened Contracts
  import opened LedgerTables
  import opened LedgerCalls
  import opened LedgerProtocol
  import opened Grammars
  import CanonicalJson
  import Sql

  /** A positive sequence number, a tick that is not negative, keys that are names, and no
      URL anywhere in the evidence. */
  ghost predicate WellFormed(e: Event) {
    e.seqNo > 0 && e.tick >= 0 && CleanMap(e.evidence)
  }

  /** Lifecycle events are written by the ledger's own transactions only. */
  predicate Lifecycled(kind: EventKind) {
    match kind
    case ActionProposed => true
    case OperationPrepared => true
    case AttemptDispatched => true
    case StateTransition => true
    case _ => false
  }

  /** The event comes right behind the last stored one and not before its tick. */
  predicate Follows(rows: seq<EventRow>, e: Event) {
    if |rows| == 0 then e.seqNo == 1
    else
      && (forall r | r in rows :: r.seqNo < e.seqNo)
      && exists r | r in rows :: r.seqNo == e.seqNo - 1 && r.tick <= e.tick
  }

  lemma {:induction false} LastInserted(rows: seq<EventRow>, row: EventRow)
    ensures var more := Sql.InsertOrdered(rows, row, EventBefore);
            && |more| == |rows| + 1
            && more[|rows|] == if |rows| == 0 || row.seqNo >= rows[|rows| - 1].seqNo then row else rows[|rows| - 1]
  {
    Sql.InsertOrderedMembers(rows, row, EventBefore);
    assert |multiset(Sql.InsertOrdered(rows, row, EventBefore))| == |multiset(rows) + multiset{row}|;
  }

  predicate Greatest(rows: seq<EventRow>, last: EventRow) {
    last in rows && forall r | r in rows :: r.seqNo <= last.seqNo
  }

  lemma GreatestOfMore(rows: seq<EventRow>, last: EventRow)
    requires |rows| > 0
    requires if |rows| == 1 then last == rows[0]
             else exists top :: Greatest(rows[..|rows| - 1], top)
                                && last == if rows[|rows| - 1].seqNo >= top.seqNo then rows[|rows| - 1] else top
    ensures Greatest(rows, last)
  {
    assert rows == rows[..|rows| - 1] + [rows[|rows| - 1]];
  }

  /** The latest row is stored and has the greatest sequence number. */
  lemma {:induction false} GreatestLast(rows: seq<EventRow>)
    requires |rows| > 0
    ensures var sorted := Sql.OrderBy(rows, EventBefore);
            |sorted| == |rows| && Greatest(rows, sorted[|rows| - 1])
  {
    hide Sql.InsertOrdered, Greatest;
    var n := |rows| - 1;
    var init := Sql.OrderBy(rows[..n], EventBefore);
    Sql.OrderByMembers(rows[..n], EventBefore);
    LastInserted(init, rows[n]);
    if n > 0 { GreatestLast(rows[..n]); }
    GreatestOfMore(rows, Sql.OrderBy(rows, EventBefore)[n]);
  }

  lemma LatestExact(t: Tables)
    requires EventsKeyed(t)
    ensures |t.events| == 0 ==> LatestEvent(t).None? && NextSeq(t) == 1
    ensures |t.events| > 0 ==>
              && LatestEvent(t).Some? && LatestEvent(t).value in t.events
              && NextSeq(t) == LatestEvent(t).value.seqNo + 1
              && forall r | r in t.events ::
                   r.seqNo < NextSeq(t) && (r.seqNo == NextSeq(t) - 1 ==> r == LatestEvent(t).value)
  {
    if |t.events| > 0 {
      GreatestLast(t.events);
      var last := LatestEvent(t).value;
      forall r | r in t.events ensures r.seqNo == last.seqNo ==> r == last {
        var i :| 0 <= i < |t.events| && t.events[i] == r;
        var j :| 0 <= j < |t.events| && t.events[j] == last;
      }
    }
  }

  lemma FollowsExact(t: Tables, e: Event)
    requires EventsKeyed(t)
    ensures Follows(t.events, e) <==>
              && e.seqNo == NextSeq(t) && !HasEvent(t, e.seqNo)
              && (LatestEvent(t).Some? ==> LatestEvent(t).value.tick <= e.tick)
  {
    hide LatestEvent, NextSeq, EventsKeyed;
    LatestExact(t);
    if |t.events| > 0 {
      var last := LatestEvent(t).value;
      if e.seqNo == NextSeq(t) && last.tick <= e.tick {
        assert last in t.events && last.seqNo == e.seqNo - 1;
      }
      if Follows(t.events, e) {
        var r :| r in t.events && r.seqNo == e.seqNo - 1 && r.tick <= e.tick;
        assert last.seqNo < e.seqNo;
      }
    }
  }

  lemma FormExact(e: Event)
    ensures ValidEvent(e) <==> WellFormed(e)
    ensures Managed(e.kind) <==> Lifecycled(e.kind)
  {
    MapExact(e.evidence);
  }

  /** An append on any tables that keep their keys: exactly which events are stored, in
      which row, and which are refused for what. */
  lemma AppendExactly(t: Tables, e: Event)
    requires EventsKeyed(t)
    ensures Append(t, e) ==
              if !WellFormed(e) then Err(InvalidArgument)
              else if Lifecycled(e.kind) then Err(ManagedEvent)
              else if !Follows(t.events, e) then Err(EventSequence)
              else Ok(t.(events := t.events + [EventRow(e.seqNo, e.tick, e.kind, e.links,
                                                        CanonicalJson.Print(CanonicalJson.Obj(e.evidence)))]))
  {
    hide WellFormed, ValidEvent, Managed, Lifecycled, LatestEvent, NextSeq, HasEvent, Follows, EventsKeyed;
    FormExact(e);
    FollowsExact(t, e);
  }

  /** A URL anywhere in an event's evidence keeps the event out of any ledger. */
  lemma UrlKeepsOut(l: Ledger, e: Event, k: string, text: string)
    requires !l.closed && k in e.evidence && Contains(e.evidence[k], text) && IsUrl(text)
    ensures Perform(l, AppendCall(e)) == (l, Refused(InvalidArgument))
  {
    hide IsUrl, NameText, Contains, NextSeq, LatestEvent, HasEvent, ValidEvent;
    FormExact(e);
  }
}
