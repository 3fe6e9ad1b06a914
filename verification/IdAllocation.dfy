/** Attempt and effect identifiers allocated within one run: bounded counters printed
    behind a name, and why the printed ids are valid and never repeat. */
module IdAllocation {
  import opened Wrappers
  import opened Text
  import opened StateMachine

  const MAX_COUNTER := 0xFFFF_FFFF_FFFF_FFFF

  datatype AllocationError = BadKind | Exhausted | InvalidId

  datatype Counters = Counters(attempts: nat, effects: map<string, nat>)

  /** `^[a-z][a-z0-9-]{0,63}$` */
  predicate ValidKind(kind: string) {
    1 <= |kind| <= 64 && IsLower(kind[0]) && AllTokenChars(kind)
  }

  /** `^[a-z][a-z0-9-]*$` in at most 128 characters. */
  predicate ValidEffectId(s: string) {
    1 <= |s| <= 128 && IsLower(s[0]) && AllTokenChars(s)
  }

  function IdText(name: string, counter: nat): string {
    name + "-" + Decimal(counter)
  }

  function NextCounter(current: nat): Result<nat, AllocationError> {
    if current >= MAX_COUNTER then Err(Exhausted) else Ok(current + 1)
  }

  function EffectCounter(c: Counters, kind: string): nat {
    if kind in c.effects then c.effects[kind] else 0
  }

  /** The counter is stored before the printed id is validated. */
  function NextAttemptId(c: Counters): (Counters, Result<string, AllocationError>) {
    match NextCounter(c.attempts)
    case Err(error) => (c, Err(error))
    case Ok(n) =>
      (c.(attempts := n), if ValidAttemptId(IdText("attempt", n)) then Ok(IdText("attempt", n)) else Err(InvalidId))
  }

  function NextEffectId(c: Counters, kind: string): (Counters, Result<string, AllocationError>) {
    if !ValidKind(kind) then (c, Err(BadKind))
    else
      match NextCounter(EffectCounter(c, kind))
      case Err(error) => (c, Err(error))
      case Ok(n) =>
        (c.(effects := c.effects[kind := n]),
         if ValidEffectId(IdText(kind, n)) then Ok(IdText(kind, n)) else Err(InvalidId))
  }

  // ---------- Printed ids are valid ----------

  lemma TwentyDigits()
    ensures MAX_COUNTER < PowerOfTen(20)
  {
    assert PowerOfTen(4) == 10000 by { assert PowerOfTen(2) == 100; }
    assert PowerOfTen(8) == 100000000 by { assert PowerOfTen(6) == 1000000; }
    assert PowerOfTen(12) == 1000000000000 by { assert PowerOfTen(10) == 10000000000; }
    assert PowerOfTen(16) == 10000000000000000 by { assert PowerOfTen(14) == 100000000000000; }
    assert PowerOfTen(20) == 100000000000000000000 by { assert PowerOfTen(18) == 1000000000000000000; }
  }

  lemma PrintedChars(name: string, n: nat)
    requires AllTokenChars(name)
    ensures AllTokenChars(IdText(name, n))
  {
    forall c | c in IdText(name, n) ensures IsTokenChar(c) {
      if c !in name && c != '-' { assert c in Decimal(n); }
    }
  }

  /** No counter the cap lets through prints past 128 characters or outside the grammar,
      for any valid kind. */
  lemma PrintedIdValid(kind: string, n: nat)
    requires ValidKind(kind) && n <= MAX_COUNTER
    ensures ValidEffectId(IdText(kind, n))
    ensures ValidAttemptId(IdText("attempt", n))
  {
    TwentyDigits();
    DecimalLength(n, 20, PowerOfTen(20));
    PrintedChars(kind, n);
    var s := IdText("attempt", n);
    assert s[..8] == "attempt-";
    assert s[8..] == Decimal(n);
    PrintedChars("", n);
    assert forall c | c in Decimal(n) :: c in IdText("", n);
  }

  /** Final validation never fails: an attempt id is refused only when its counter is
      exhausted, an effect id only then or for a malformed kind; a refusal changes
      nothing. */
  lemma RefusedExactly(c: Counters, kind: string)
    ensures NextAttemptId(c).1.Err? <==> c.attempts >= MAX_COUNTER
    ensures NextAttemptId(c).1.Err? ==> NextAttemptId(c) == (c, Err(Exhausted))
    ensures NextEffectId(c, kind).1.Err? <==> !ValidKind(kind) || EffectCounter(c, kind) >= MAX_COUNTER
    ensures NextEffectId(c, kind).1.Err? ==>
              NextEffectId(c, kind) == (c, Err(if ValidKind(kind) then Exhausted else BadKind))
  {
    hide ValidKind, ValidEffectId, ValidAttemptId, IdText;
    if c.attempts < MAX_COUNTER {
      assert ValidKind("a") by { SomeKind(); }
      PrintedIdValid("a", c.attempts + 1);
    }
    if ValidKind(kind) && EffectCounter(c, kind) < MAX_COUNTER {
      PrintedIdValid(kind, EffectCounter(c, kind) + 1);
    }
  }

  lemma SomeKind()
    ensures ValidKind("a")
  {
  }

  // ---------- An id determines its name and counter ----------

  /** What follows the last hyphen. */
  function AfterHyphen(s: string): string {
    if |s| == 0 || s[|s| - 1] == '-' then "" else AfterHyphen(s[..|s| - 1]) + [s[|s| - 1]]
  }

  lemma {:induction false} SplitAtLastHyphen(name: string, digits: string)
    requires AllDigits(digits)
    ensures AfterHyphen(name + "-" + digits) == digits
  {
    var s := name + "-" + digits;
    if |digits| == 0 {
      assert s[|s| - 1] == '-';
    } else {
      SplitAtLastHyphen(name, digits[..|digits| - 1]);
      assert s[..|s| - 1] == name + "-" + digits[..|digits| - 1];
    }
  }

  /** Printed ids agree exactly when their names and counters do, although names may
      contain hyphens and digits themselves. */
  lemma IdTextExact(name: string, m: nat, other: string, n: nat)
    ensures IdText(name, m) == IdText(other, n) <==> name == other && m == n
  {
    if IdText(name, m) == IdText(other, n) {
      SplitAtLastHyphen(name, Decimal(m));
      SplitAtLastHyphen(other, Decimal(n));
      DecimalRoundTrip(m);
      DecimalRoundTrip(n);
      assert name == IdText(name, m)[..|name|] && other == IdText(other, n)[..|other|];
    }
  }

  // ---------- Whole runs of one allocator ----------

  datatype Request = AttemptRequest | EffectRequest(kind: string)

  function Allocate(c: Counters, r: Request): (Counters, Result<string, AllocationError>) {
    match r
    case AttemptRequest => NextAttemptId(c)
    case EffectRequest(kind) => NextEffectId(c, kind)
  }

  function AllocateAll(c: Counters, requests: seq<Request>): (r: (Counters, seq<Result<string, AllocationError>>))
    ensures |r.1| == |requests|
  {
    if |requests| == 0 then (c, [])
    else
      var (before, ids) := AllocateAll(c, requests[..|requests| - 1]);
      var (after, id) := Allocate(before, requests[|requests| - 1]);
      (after, ids + [id])
  }

  function NameOf(r: Request): string {
    match r
    case AttemptRequest => "attempt"
    case EffectRequest(kind) => kind
  }

  function CounterOf(c: Counters, r: Request): nat {
    match r
    case AttemptRequest => c.attempts
    case EffectRequest(kind) => EffectCounter(c, kind)
  }

  lemma AllocateStep(c: Counters, r: Request, other: Request)
    ensures var (after, id) := Allocate(c, r);
            && (id.Ok? ==>
                  id.value == IdText(NameOf(r), CounterOf(after, r)) && CounterOf(after, r) == CounterOf(c, r) + 1)
            && (CounterOf(after, other) ==
                  if other == r && id.Ok? then CounterOf(c, other) + 1 else CounterOf(c, other))
  {
    hide ValidAttemptId, ValidEffectId, ValidKind, IdText;
    RefusedExactly(c, NameOf(r));
  }

  /** How many of the requests equal to `r` were granted. */
  function Granted(requests: seq<Request>, ids: seq<Result<string, AllocationError>>, r: Request): nat
    requires |requests| == |ids|
  {
    if |requests| == 0 then 0
    else
      Granted(requests[..|requests| - 1], ids[..|ids| - 1], r)
      + if requests[|requests| - 1] == r && ids[|ids| - 1].Ok? then 1 else 0
  }

  lemma {:induction false} CounterCountsGrants(c: Counters, requests: seq<Request>, r: Request)
    ensures CounterOf(AllocateAll(c, requests).0, r) == CounterOf(c, r)
              + Granted(requests, AllocateAll(c, requests).1, r)
  {
    if |requests| > 0 {
      hide Allocate;
      var n := |requests| - 1;
      CounterCountsGrants(c, requests[..n], r);
      AllocateStep(AllocateAll(c, requests[..n]).0, requests[n], r);
      assert AllocateAll(c, requests).1[..n] == AllocateAll(c, requests[..n]).1;
    }
  }

  lemma {:induction false} IdsOfPrefix(c: Counters, requests: seq<Request>, n: nat)
    requires n <= |requests|
    ensures AllocateAll(c, requests).1[..n] == AllocateAll(c, requests[..n]).1
    decreases |requests|
  {
    hide Allocate;
    if n == |requests| {
      assert requests[..n] == requests;
    } else {
      IdsOfPrefix(c, requests[..|requests| - 1], n);
      assert requests[..|requests| - 1][..n] == requests[..n];
    }
  }

  lemma {:induction false} GrantedGrows(
    requests: seq<Request>, ids: seq<Result<string, AllocationError>>, r: Request, n: nat)
    requires |requests| == |ids| && n <= |requests|
    ensures Granted(requests[..n], ids[..n], r) <= Granted(requests, ids, r)
    decreases |requests|
  {
    if n == |requests| {
      assert requests[..n] == requests && ids[..n] == ids;
    } else {
      var k := |requests| - 1;
      GrantedGrows(requests[..k], ids[..k], r, n);
      assert requests[..k][..n] == requests[..n] && ids[..k][..n] == ids[..n];
    }
  }

  /** The id granted at one position counts the grants of its own request up to there. */
  lemma GrantedId(c: Counters, requests: seq<Request>, i: nat)
    requires i < |requests| && AllocateAll(c, requests).1[i].Ok?
    ensures var ids := AllocateAll(c, requests).1;
            ids[i].value == IdText(NameOf(requests[i]),
                                   CounterOf(c, requests[i]) + Granted(requests[..i + 1], ids[..i + 1], requests[i]))
  {
    hide Allocate;
    IdsOfPrefix(c, requests, i + 1);
    IdsOfPrefix(c, requests[..i + 1], i);
    assert requests[..i + 1][..i] == requests[..i];
    assert AllocateAll(c, requests).1[i] == AllocateAll(c, requests[..i + 1]).1[i];
    AllocateStep(AllocateAll(c, requests[..i]).0, requests[i], requests[i]);
    CounterCountsGrants(c, requests[..i + 1], requests[i]);
  }

  /** Two granted ids are the same exactly when their requests have the same name and have
      been granted equally often. */
  lemma IdsMeetExactly(c: Counters, requests: seq<Request>, i: nat, j: nat)
    requires i < |requests| && j < |requests|
    requires AllocateAll(c, requests).1[i].Ok? && AllocateAll(c, requests).1[j].Ok?
    ensures var ids := AllocateAll(c, requests).1;
            ids[i] == ids[j] <==>
              && NameOf(requests[i]) == NameOf(requests[j])
              && CounterOf(c, requests[i]) + Granted(requests[..i + 1], ids[..i + 1], requests[i])
                 == CounterOf(c, requests[j]) + Granted(requests[..j + 1], ids[..j + 1], requests[j])
  {
    hide Allocate, IdText, AllocateAll, Granted;
    var ids := AllocateAll(c, requests).1;
    GrantedId(c, requests, i);
    GrantedId(c, requests, j);
    IdTextExact(NameOf(requests[i]), CounterOf(c, requests[i]) + Granted(requests[..i + 1], ids[..i + 1], requests[i]),
                NameOf(requests[j]), CounterOf(c, requests[j]) + Granted(requests[..j + 1], ids[..j + 1], requests[j]));
  }

  /** No attempt id and no effect id is ever issued twice by one allocator, across all
      kinds; an attempt id can meet an effect id only of the kind `attempt`. */
  lemma IdsNeverRepeat(c: Counters, requests: seq<Request>, i: nat, j: nat)
    requires i < j < |requests|
    requires AllocateAll(c, requests).1[i].Ok? && AllocateAll(c, requests).1[j].Ok?
    ensures AllocateAll(c, requests).1[i] == AllocateAll(c, requests).1[j] ==>
              requests[i] != requests[j] && NameOf(requests[i]) == NameOf(requests[j]) == "attempt"
    ensures (requests[i].AttemptRequest? <==> requests[j].AttemptRequest?) ==>
              AllocateAll(c, requests).1[i] != AllocateAll(c, requests).1[j]
  {
    hide Allocate, IdText, AllocateAll;
    var ids := AllocateAll(c, requests).1;
    GrantedId(c, requests, i);
    GrantedId(c, requests, j);
    IdTextExact(NameOf(requests[i]), CounterOf(c, requests[i]) + Granted(requests[..i + 1], ids[..i + 1], requests[i]),
                NameOf(requests[j]), CounterOf(c, requests[j]) + Granted(requests[..j + 1], ids[..j + 1], requests[j]));
    if requests[i] == requests[j] {
      GrantedGrows(requests[..j], ids[..j], requests[i], i + 1);
      assert requests[..j][..i + 1] == requests[..i + 1] && ids[..j][..i + 1] == ids[..i + 1];
      assert requests[..j + 1][..j] == requests[..j] && ids[..j + 1][..j] == ids[..j];
    }
  }

  /** The first of the requests equal to `r`. */
  lemma {:induction false} FirstRequest(requests: seq<Request>, r: Request) returns (i: nat)
    requires r in requests
    ensures i < |requests| && requests[i] == r && r !in requests[..i]
  {
    if requests[0] == r {
      i := 0;
    } else {
      var k := FirstRequest(requests[1..], r);
      i := k + 1;
      assert requests[..i] == [requests[0]] + requests[1..][..k];
    }
  }

  lemma {:induction false} NothingGranted(requests: seq<Request>, ids: seq<Result<string, AllocationError>>, r: Request)
    requires |requests| == |ids| && r !in requests
    ensures Granted(requests, ids, r) == 0
  {
    if |requests| > 0 {
      NothingGranted(requests[..|requests| - 1], ids[..|ids| - 1], r);
    }
  }

  /** A new allocator grants the first request of any valid name, with counter one. */
  lemma FirstId(requests: seq<Request>, r: Request) returns (i: nat)
    requires r in requests && (r.EffectRequest? ==> ValidKind(r.kind))
    ensures i < |requests| && requests[i] == r
    ensures AllocateAll(Counters(0, map[]), requests).1[i] == Ok(IdText(NameOf(r), 1))
  {
    hide ValidKind, IdText;
    var c := Counters(0, map[]);
    i := FirstRequest(requests, r);
    var before := AllocateAll(c, requests[..i]).0;
    CounterCountsGrants(c, requests[..i], r);
    NothingGranted(requests[..i], AllocateAll(c, requests[..i]).1, r);
    assert CounterOf(before, r) == 0;
    hide AllocateAll, Allocate;
    FirstGrant(before, r);
    OutcomeAt(c, requests, i);
    AllocateStep(before, r, r);
  }

  lemma FirstGrant(c: Counters, r: Request)
    requires CounterOf(c, r) == 0 && (r.EffectRequest? ==> ValidKind(r.kind))
    ensures Allocate(c, r).1.Ok?
  {
    hide NextAttemptId, NextEffectId, ValidKind;
    RefusedExactly(c, NameOf(r));
  }

  /** The outcome at one position of a run is that of its request where the run has got to. */
  lemma OutcomeAt(c: Counters, requests: seq<Request>, i: nat)
    requires i < |requests|
    ensures AllocateAll(c, requests).1[i] == Allocate(AllocateAll(c, requests[..i]).0, requests[i]).1
  {
    hide Allocate;
    IdsOfPrefix(c, requests, i + 1);
    assert requests[..i + 1][..i] == requests[..i];
    assert AllocateAll(c, requests).1[i] == AllocateAll(c, requests).1[..i + 1][i];
  }

  /** Some id is issued twice. */
  predicate IdRepeats(ids: seq<Result<string, AllocationError>>) {
    exists i: nat, j: nat :: i < j < |ids| && ids[i].Ok? && ids[i] == ids[j]
  }

  /** A run of a new allocator issues some id twice if and only if it is asked both for an
      attempt id and for an effect id of the kind `attempt`. */
  lemma RepeatExactly(requests: seq<Request>)
    ensures IdRepeats(AllocateAll(Counters(0, map[]), requests).1) <==>
              AttemptRequest in requests && EffectRequest("attempt") in requests
  {
    var c := Counters(0, map[]);
    var ids := AllocateAll(c, requests).1;
    AttemptIsKind();
    hide AllocateAll, IdText, ValidKind;
    if i: nat, j: nat :| i < j < |ids| && ids[i].Ok? && ids[i] == ids[j] {
      IdsNeverRepeat(c, requests, i, j);
      assert requests[i] in requests && requests[j] in requests;
    }
    if AttemptRequest in requests && EffectRequest("attempt") in requests {
      var i := FirstId(requests, AttemptRequest);
      var j := FirstId(requests, EffectRequest("attempt"));
      assert i < j || j < i;
    }
  }

  lemma AttemptIsKind()
    ensures ValidKind("attempt")
  {
  }

  /** The shortest such run. */
  lemma AttemptMeetsEffect()
    ensures AllocateAll(Counters(0, map[]), [AttemptRequest, EffectRequest("attempt")]).1
              == [Ok("attempt-1"), Ok("attempt-1")]
  {
    var requests := [AttemptRequest, EffectRequest("attempt")];
    AttemptIsKind();
    hide ValidKind, AllocateAll;
    var i := FirstId(requests, AttemptRequest);
    var j := FirstId(requests, EffectRequest("attempt"));
    assert i == 0 && j == 1;
    assert IdText("attempt", 1) == "attempt-1";
  }

  // ---------- The allocator object ----------

  class RunScopedIdAllocator {
    const runId: string
    var attemptCounter: nat
    var effectCounters: map<string, nat>

    function Value(): Counters
      reads this
    {
      Counters(attemptCounter, effectCounters)
    }

    constructor (runId: string)
      ensures Value() == Counters(0, map[])
    {
      this.runId := runId;
      attemptCounter, effectCounters := 0, map[];
    }

    /** Thanks to the cap the validation of the printed id cannot fail. */
    method NextAttempt() returns (r: Result<string, AllocationError>)
      modifies this`attemptCounter
      ensures (Value(), r) == NextAttemptId(old(Value()))
      ensures r.Err? ==> r == Err(Exhausted) && Value() == old(Value())
    {
      hide ValidAttemptId, IdText;
      RefusedExactly(Value(), "attempt");
      if attemptCounter >= MAX_COUNTER {
        return Err(Exhausted);
      }
      attemptCounter := attemptCounter + 1;
      var id := IdText("attempt", attemptCounter);
      return if ValidAttemptId(id) then Ok(id) else Err(InvalidId);
    }

    method NextEffect(kind: string) returns (r: Result<string, AllocationError>)
      modifies this`effectCounters
      ensures (Value(), r) == NextEffectId(old(Value()), kind)
      ensures r.Err? ==> r.error != InvalidId && Value() == old(Value())
    {
      hide ValidKind, ValidEffectId, IdText;
      RefusedExactly(Value(), kind);
      if !ValidKind(kind) {
        return Err(BadKind);
      }
      var current := if kind in effectCounters then effectCounters[kind] else 0;
      if current >= MAX_COUNTER {
        return Err(Exhausted);
      }
      effectCounters := effectCounters[kind := current + 1];
      var id := IdText(kind, current + 1);
      return if ValidEffectId(id) then Ok(id) else Err(InvalidId);
    }
  }
}
