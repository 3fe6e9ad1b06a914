/** Which request of a new allocator gets which id: told by how often it was made before. */
module AllocationRules {
  import opened Wrappers
  import opened Text
  import opened StateMachine
  import opened Grammars
  import opened IdAllocation

  /** How many of the requests are this one. */
  function Asked(requests: seq<Request>, r: Request): nat {
    if |requests| == 0 then 0
    else Asked(requests[..|requests| - 1], r) + if requests[|requests| - 1] == r then 1 else 0
  }

  /** A kind is a letter and at most 63 letters, digits and hyphens. */
  predicate KindFormed(kind: string) {
    1 <= |kind| <= 64 && 97 <= kind[0] as int <= 122 && forall i | 0 <= i < |kind| :: TokenCode(kind[i])
  }

  lemma KindExact(kind: string)
    ensures ValidKind(kind) <==> KindFormed(kind)
  {
    if |kind| <= 64 { EvidenceNameExact(kind); }
  }

  predicate Grantable(r: Request) {
    r.EffectRequest? ==> KindFormed(r.kind)
  }

  /** One request, where its counter stands. */
  lemma AllocatesExactly(c: Counters, r: Request)
    ensures Allocate(c, r).1 ==
              if !Grantable(r) then Err(BadKind)
              else if CounterOf(c, r) >= 18446744073709551615 then Err(Exhausted)
              else Ok((if r.AttemptRequest? then "attempt" else r.kind) + "-" + Decimal(CounterOf(c, r) + 1))
  {
    hide ValidKind, KindFormed, ValidAttemptId, ValidEffectId, EffectCounter;
    RefusedExactly(c, if r.EffectRequest? then r.kind else "");
    if r.EffectRequest? { KindExact(r.kind); }
  }

  function Smaller(a: nat, b: nat): nat {
    if a < b then a else b
  }

  lemma {:induction false} CounterCountsRequests(requests: seq<Request>, r: Request)
    ensures CounterOf(AllocateAll(Counters(0, map[]), requests).0, r)
         == if Grantable(r) then Smaller(Asked(requests, r), 18446744073709551615) else 0
  {
    if |requests| > 0 {
      hide Allocate, KindFormed;
      var n := |requests| - 1;
      CounterCountsRequests(requests[..n], r);
      var before := AllocateAll(Counters(0, map[]), requests[..n]).0;
      AllocatesExactly(before, requests[n]);
      AllocateStep(before, requests[n], r);
    }
  }

  /** A new allocator refuses exactly the malformed kinds and every request made
      18446744073709551615 times before; any other request gets its name and how often it
      has now been made. */
  lemma GrantedExactly(requests: seq<Request>, i: nat)
    requires i < |requests|
    ensures var r, earlier := requests[i], Asked(requests[..i], requests[i]);
            AllocateAll(Counters(0, map[]), requests).1[i] ==
              if !Grantable(r) then Err(BadKind)
              else if earlier >= 18446744073709551615 then Err(Exhausted)
              else Ok((if r.AttemptRequest? then "attempt" else r.kind) + "-" + Decimal(earlier + 1))
  {
    hide Allocate, AllocateAll, KindFormed;
    CounterCountsRequests(requests[..i], requests[i]);
    OutcomeAt(Counters(0, map[]), requests, i);
    AllocatesExactly(AllocateAll(Counters(0, map[]), requests[..i]).0, requests[i]);
  }
}
