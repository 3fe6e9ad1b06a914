# Side Effects Lab: ledger, state machine, canonical JSON, scheduler and authority

This project models the kernel of Side Effects Lab in Dafny and proves what the kernel
promises about ambiguous side effects: that an action's stored history can always be
replayed, that no attempt is dispatched twice, that a retry after an ambiguous outcome was
justified by evidence, and that a checker which sees only the stored tables can confirm
all of it.

## How the project is laid out

**The state machine** (`StateMachine.dfy`, `Histories.dfy`). `TakeStep` is one call of
`OperationStateMachine.transition` as a function; the class of that name is proved to
compute it. `Histories` adds whole runs: a history is *legal* when taking every recorded
step again makes exactly the recorded records, and the shape of every run, the attempts
along it and the justification of every retry follow from that alone. `TransitionRules.dfy`
says which calls return, and what a refusal reads, by cause instead of by the table of edges:
each cause has one destination, the states it departs from and the facts that support it.

**Canonical JSON** (`Text.dfy`, `CanonicalJson.dfy`, `Normalization.dfy`). `CanonicalJson`
has the printer for the exact `dumps` configuration and a parser for JSON texts as RFC 8259
defines them (sections 4 to 7); parsing what was printed gives the value back, so printed
text decides structural equality. `Normalization` starts from program values, with
dictionaries in insertion order, lists and tuples, floats and foreign objects, and shows
which of them print, and when two of them print alike. `PrintedText.dfy` tells which of the
many JSON texts of a value is printed, down to separators, escapes and digits,
`ValueTexts.dfy` the same of program values, and `ShortestText.dfy` proves that no text that
reads as a value is shorter than its canonical one.

**Grammars** (`Contracts.dfy`, `Grammars.dfy`). The identifiers, names, digests and the rule
against URLs in evidence, as the contracts test them and again by positions and code points.

**The ledger** comes in three forms.

- *Stored*: `LedgerTables.dfy` has the five tables with the key, unique, check and
  reference constraints SQLite enforces; `LedgerCalls.dfy` says what each call does to any
  tables at all, replaying stored rows through the state machine; `LedgerChecker.dfy` is
  the independent checker; `LedgerProtocol.dfy` makes one call and a run of calls out of
  them. `SQLiteLedger.dfy` is the mutable ledger object with its loops, its transactions
  and its rollbacks, and every public method is proved to do what `Perform` says.
- *Live*: `LiveLedger.dfy` is the simple ledger one would want, with one event list, one
  live machine per action and one set of attempt ids; `LiveInvariant.dfy` proves its
  invariant.
- *Related*: `LedgerRefinement.dfy`, `LedgerSimulation.dfy` and `LedgerReachable.dfy` prove
  that the stored ledger and the live one cannot be told apart over any sequence of calls,
  close and reopen included, and that the checker accepts every reachable state.

`LedgerAtomicity.dfy` is about failing calls, `LedgerHistory.dfy` about the event log as the
whole truth and about permits. `CallOutcomes.dfy` gives for each kind of call the exact
answer and the exact new log and snapshot on any ledger some calls have led to, told of what
can be read before the call, and `Appending.dfy` the exact answer of an append on any keyed
tables. What acceptance by the checker means for tables of any origin
is in `LedgerAcceptance.dfy`, `AcceptedHistories.dfy` and `AcceptedFold.dfy`, and
`AcceptedUnreachable.dfy` and `AcceptedDisorder.dfy` have accepted tables no call can leave.
Exactly which tables calls can leave is settled in three steps: `LiveReachability.dfy` undoes
the last call of a live ledger until nothing is left, `WrittenTables.dfy` proves what every
call writes on any tables at all, and `ReachableExactly.dfy` puts both together.

**Logical time** (`Scheduling.dfy`, `SchedulingLaws.dfy`, `BinaryHeap.dfy`, `Scheduler.dfy`).
`Scheduling` is a queue kept in stable order of tick, over a clock that others may advance;
`SchedulingLaws` ties what is scheduled and how the clock is moved to the pops that follow;
`BinaryHeap` is the heap of `heapq`, in place on an array; the classes in `Scheduler.dfy` run
on the heap and are proved to do what the queue does.

**Identifiers and authority** (`IdAllocation.dfy`, `AllocationRules.dfy`, `Authority.dfy`,
`AuthorityRules.dfy`). The bounded counters printed into ids, and the authority check with
the decision whose evidence justifies it; the two files of rules tell the whole answer of an
allocation from the requests before it, and of a check from grant and request.

Results that turned out not to hold as one might first state them are given with a
concrete input and their exact condition.

- *One allocator never issues an id twice.* False between attempt ids and effect ids: a run
  of a new allocator repeats an id if and only if it is asked both for an attempt id and for
  an effect id of the kind `attempt` (`IdAllocation.RepeatExactly`; the shortest such run is
  `IdAllocation.AttemptMeetsEffect`). Two granted ids are the same exactly when their names
  agree and both have been granted equally often (`IdAllocation.IdsMeetExactly`).
- *Accepted tables show what their log folds to, as reachable ones do.* False, because the
  checker takes 1 for true and does not order sequence numbers: accepted tables show the
  fold if and only if every action's transitions follow its proposal in rising order and
  every true flag stands in the log as a Boolean (`AcceptedFold.AcceptedFoldExactly`).
  Both parts are needed: `AcceptedUnreachable.LoosenedTables` breaks any true flag and
  `AcceptedDisorder.OrderIsNeeded` the order.
- *Accepted implies reachable.* False: `AcceptedUnreachable.AcceptedNotReachable` has tables
  that satisfy every key and the checker, and that no sequence of calls leaves; nor does
  acceptance together with the fold suffice (`AcceptedUnreachable.ShowsFoldNotReachable`).
  Calls leave exactly the tables that are keyed, accepted and *as written*
  (`ReachableExactly.ReachableExactly`), which can be read off the rows: rows are stored in
  the order of their events, managed events link to an identity and an attempt and to
  nothing else, the event of every transition row holds exactly that row's facts, an
  action's transitions follow its proposal in rising order, and an attempt id is recorded
  exactly with an attempted entry into IN_FLIGHT.

Verify everything with `dafny verify dfyconfig.toml`.

## Model

| member | source | states |
|---|---|---|
| StateMachine.SucceedsExactly | src/side_effects_lab/state_machine.py:236-319 | a transition call returns if and only if identity, attempt freshness, edge, cause and guard all hold, or it is an explicit invariant violation with unchanged identity and no attempt id; a returning call appends its one record, moves to the target and records the attempt id exactly when entering IN_FLIGHT |
| StateMachine.RaisesExactly | src/side_effects_lab/state_machine.py:434-453 | a raising call leaves a machine in VIOLATION as it was, and otherwise appends exactly one violation record, moves to VIOLATION and keeps identity and attempts |
| StateMachine.RecordKeepsInputs | src/side_effects_lab/state_machine.py:368-375 | the record of any call keeps the call's target, evidence id, cause and valid attempt id, so a stored record suffices to take the step again |
| StateMachine.GuardExact | src/side_effects_lab/state_machine.py:377-411 | the guard reports no failure exactly when the evidence facts its edge demands all hold |
| StateMachine.ChangedFieldsExact | src/side_effects_lab/state_machine.py:321-326 | no changed field is listed exactly when the candidate identity is the registered one |
| StateMachine.FailureNamed | src/side_effects_lab/state_machine.py:248-366 | the recorded reason is exactly the first thing wrong, in the order identity, attempt (unexpected, missing, invalid, reused), edge, cause, guard |
| StateMachine.StepCases | src/side_effects_lab/state_machine.py:248-319 | a call on a live machine ends in a failure, a reported violation or an accepted move, and nothing else |
| StateMachine.OperationStateMachine.constructor | src/side_effects_lab/state_machine.py:212-218 | a new machine is in PROPOSED with no attempts and no history |
| StateMachine.OperationStateMachine.Transition | src/side_effects_lab/state_machine.py:236-319 | the mutating method returns or raises, and leaves the fields, exactly as the step function says |
| StateMachine.OperationStateMachine.RecordTransition | src/side_effects_lab/state_machine.py:413-432 | one record appended, the state moved to the target |
| StateMachine.OperationStateMachine.RecordFailure | src/side_effects_lab/state_machine.py:434-453 | the failure path mutates to VIOLATION with one record before raising |
| TransitionRules.ReturnsExactly | src/side_effects_lab/state_machine.py:60-114 | on every machine a call returns if and only if the identity is unchanged, the attempt id is fresh and well formed exactly when entering IN_FLIGHT, and the evidence's cause departs from the machine's state, leads to the target and is supported by the facts it needs; all seventeen edges, without the table of edges |
| TransitionRules.ReturnLeadsTo | src/side_effects_lab/state_machine.py:413-432 | a returning call leaves the machine at its cause's destination, with a record of exactly what was given |
| TransitionRules.FromInFlight | src/side_effects_lab/state_machine.py:77-85 | from IN_FLIGHT, violations apart, only a success receipt leads to VERIFYING, a rejection before commit to RETRYABLE and an ambiguous outcome to INDETERMINATE |
| TransitionRules.FromReconciling | src/side_effects_lab/state_machine.py:89-97 | from RECONCILING only an exact effect found, a conclusive absence or an inconclusive lookup leads on, each to its own state and with its own facts |
| TransitionRules.FromVerifying | src/side_effects_lab/state_machine.py:104-112 | from VERIFYING only a fresh postcondition with all four facts completes, an incomplete verification reconciles and a failed one stops |
| TransitionRules.EntryLeadsTo | src/side_effects_lab/state_machine.py:60-114 | in every legal history the cause of an entry that is no violation fixes where it leads, departs from the state before it and is supported |
| TransitionRules.RefusalWorded | src/side_effects_lab/state_machine.py:248-366 | a refusal before any edge is looked at reads exactly as written: terminal, the changed identity fields in order, or what is wrong with the attempt id |
| TransitionRules.EdgeRefusalWorded | src/side_effects_lab/state_machine.py:288-311 | a refusal at an edge reads that no transition is allowed, or names the given and the required cause |
| TransitionRules.FactsRefusalWorded | src/side_effects_lab/state_machine.py:377-411 | a refusal for missing facts lists exactly the missing ones in order, or asks for the exact-identity lookup |
| Histories.FittingEntry | src/side_effects_lab/state_machine.py:236-319 | an entry that replays is a normative edge with its cause and guard, or a violation; entering IN_FLIGHT takes an attempt id not used before |
| Histories.MachineOfLegal | src/side_effects_lab/state_machine.py:224-234 | the state, the record list and the attempt ids of a machine are those of its history; the attempt ids are those of the non-violation IN_FLIGHT records in order, pairwise distinct |
| Histories.Shape | src/side_effects_lab/state_machine.py:60-114 | every history is a connected path of normative edges from PROPOSED, with at most one violation record, at its end |
| Histories.Endings | src/side_effects_lab/state_machine.py:248-262 | COMPLETE comes from VERIFYING with all four completion facts; after COMPLETE or SAFE_STOP at most one more record, a violation, is ever added |
| Histories.DispatchPhases | src/side_effects_lab/state_machine.py:60-114 | before the first entry into IN_FLIGHT a run is in its preparation states, and never again afterwards |
| Histories.CompleteNeedsAttempt | src/side_effects_lab/state_machine.py:401-410 | an action completes only after at least one attempt |
| Histories.RetryHasRetryable | src/side_effects_lab/state_machine.py:96-98 | each entry into IN_FLIGHT after an earlier one has its own RETRYABLE entry between them |
| Histories.RetryIsJustified | src/side_effects_lab/state_machine.py:383-394 | between an INDETERMINATE entry and the next IN_FLIGHT lies a RECONCILING to RETRYABLE step whose evidence is fresh, authoritative and exact-identity |
| CanonicalJson.RoundTrip | src/side_effects_lab/ledger.py:689-711 | parsing the canonical text of any value gives the value back |
| CanonicalJson.PrintExact | src/side_effects_lab/canonical.py:47-62 | two values have equal canonical text if and only if they are the same value |
| CanonicalJson.CanonicalTextCheck | src/side_effects_lab/ledger.py:708-711 | the check "parse, print, compare" accepts exactly the canonical texts |
| CanonicalJson.TextRoundTrip | src/side_effects_lab/canonical.py:50-56 | every escape the printer writes inside a string reads back as the character it stands for |
| CanonicalJson.NumberRoundTrip | src/side_effects_lab/canonical.py:50-56 | every integer reads back from its printed form in any place a value may stand |
| PrintedText.StringPrinted | src/side_effects_lab/canonical.py:50-56 | a string prints between quotes, every character as itself but for quote, backslash and those below U+0020 |
| PrintedText.EscapeExact | src/side_effects_lab/canonical.py:50-56 | these are escaped by their short escape where there is one and otherwise by four lower-case hexadecimal digits |
| PrintedText.PlainPrinted | src/side_effects_lab/canonical.py:50-56 | a string without such characters prints as itself between quotes |
| PrintedText.NumberPrinted | src/side_effects_lab/canonical.py:50-56 | integers print in decimal digits without leading zero, negative ones behind a hyphen |
| PrintedText.WordsPrinted | src/side_effects_lab/canonical.py:50-56 | null, true and false print as these words |
| PrintedText.ListPrinted | src/side_effects_lab/canonical.py:50-56 | a list prints as its items' texts between brackets, with commas and no space |
| PrintedText.MappingPrinted | src/side_effects_lab/canonical.py:50-56 | a mapping prints as its members between braces in increasing code-point order of the keys, each as key, colon and value, with commas and no space |
| PrintedText.LessExact | src/side_effects_lab/canonical.py:55 | the order of keys is by the first differing code point, a prefix first |
| ShortestText.CanonicalIsShortest | src/side_effects_lab/canonical.py:47-62 | every text that reads as a value is at least as long as the value's canonical text |
| Text.SortKeysCanonical | src/side_effects_lab/canonical.py:55 | sorting the keys of a dictionary by code point gives one listing, whatever order they were inserted in |
| Text.DecimalRoundTrip | src/side_effects_lab/clock.py:171 | a printed counter denotes the number it was printed from |
| Text.DecimalLength | src/side_effects_lab/clock.py:24 | a number below a power of ten prints in that many digits |
| Normalization.NormalizeExact | src/side_effects_lab/canonical.py:20-44 | normalization succeeds if and only if no float, no unsupported type and no non-string key occurs at any depth, and keeps the meaning |
| Normalization.ErrorNamesFirstFault | src/side_effects_lab/canonical.py:20-44 | a refused value is refused for its first fault in reading order, named by its kind and its path |
| Normalization.DumpIsWrite | src/side_effects_lab/canonical.py:50-56 | printing a dictionary in insertion order with sorted keys gives the canonical text of the unordered mapping |
| Normalization.CanonicalTextOfMeaning | src/side_effects_lab/canonical.py:47-62 | the bytes of a canonical value depend on its meaning only |
| Normalization.CanonicalTextExact | src/side_effects_lab/canonical.py:20-62 | two program values print alike if and only if they are the same up to mapping order and list or tuple form, with booleans and integers distinct at every depth |
| ValueTexts.ScalarTexts | src/side_effects_lab/canonical.py:20-62 | the texts of None, the Booleans, integers and strings |
| ValueTexts.SequenceText | src/side_effects_lab/canonical.py:20-62 | a list and a tuple of the same items print alike, as the items' own texts between brackets |
| ValueTexts.MappingText | src/side_effects_lab/canonical.py:20-62 | a dictionary and a frozen map of the same fields print alike, whatever the insertion order: the values' own texts behind their keys, in code-point order |
| Normalization.FreezeRoundTrip | src/side_effects_lab/models.py:166-179 | thawing a frozen contract value gives back the value that was frozen |
| Normalization.FreezeKeepsMeaning | src/side_effects_lab/models.py:166-171 | freezing changes no value's meaning: mapping order and list or tuple form apart, it is the same value |
| Normalization.FreezeKeepsText | src/side_effects_lab/models.py:166-171 | a canonical value stays canonical when frozen and keeps its canonical text, and so its digest |
| Contracts.FactsReadBack | src/side_effects_lab/ledger.py:1186-1197 | the evidence of a state-transition event determines the record and every evidence flag |
| Contracts.ReasonNotUrl | src/side_effects_lab/models.py:150-163 | no violation reason the machine can write is taken for a URL, although one contains a colon |
| Contracts.FactsValid | src/side_effects_lab/models.py:195-203 | the facts of every step the machine can take pass event validation, so persisting a step never fails on them |
| Grammars.UrlExact | src/side_effects_lab/models.py:150-163 | a text counts as a URL if and only if it is no digest and has, behind white space, a letter, then scheme characters, then a colon; by positions and code points |
| Grammars.UrlFreeExact | src/side_effects_lab/models.py:150-163 | a value is refused if and only if such a text stands in it as a string, a list item or a member's value, at any depth |
| Grammars.MapExact | src/side_effects_lab/models.py:195-203 | an evidence map is valid if and only if its keys are names and no value holds a URL |
| Grammars.NameExact | src/side_effects_lab/models.py:80-91 | names are a lower-case letter and at most 63 letters, digits and underscores |
| Grammars.DigestExact | src/side_effects_lab/models.py:92 | digests are `sha256:` and 64 lower-case hexadecimal digits |
| Grammars.TokenExact | src/side_effects_lab/models.py:44-79 | prefixed identifiers are the prefix, a letter or digit, then letters, digits and hyphens, in at most 128 characters |
| Grammars.EvidenceNameExact | src/side_effects_lab/state_machine.py:24 | evidence ids are a letter and at most 127 letters, digits and hyphens |
| LedgerTables.EventRowExact | src/side_effects_lab/ledger.py:665-718 | a row reads as an event if and only if the event is valid and the row is the one written for it, so a written row never trips the non-canonical check |
| LedgerTables.FindOperationKeyed | src/side_effects_lab/ledger.py:827-840 | with the primary key kept, the lookup by action finds that action's row |
| Sql.OrderByMembers | src/side_effects_lab/ledger.py:445-453 | an ordered selection loses no row and invents none |
| LedgerCalls.ReplayExact | src/side_effects_lab/ledger.py:862-942 | replaying stored rows succeeds exactly when their ordinals count from one and their history is legal, and then yields the machine that history leads to |
| Appending.AppendExactly | src/side_effects_lab/ledger.py:215-223 | on any keyed tables an event is refused as invalid if it is malformed or holds a URL, as managed if it is one of the four lifecycle kinds, as out of sequence unless it follows the last row, and is otherwise stored as exactly its row |
| Appending.UrlKeepsOut | src/side_effects_lab/models.py:150-163 | a URL anywhere in an event's evidence keeps the event out of any open ledger, on any tables at all |
| LedgerChecker.LoadsExactly | src/side_effects_lab/ledger.py:842-969 | on any tables an operation loads if and only if its rows count from one, replay to the cached state and list the attempts in order; otherwise an integrity error is raised |
| LedgerChecker.FactsComparedExactly | src/side_effects_lab/ledger.py:1031-1042 | the comparison of event evidence with a transition's facts is exact on texts and nulls, and takes 1 and 0 for the flags |
| LedgerChecker.NumberPassesForFlag | src/side_effects_lab/models.py:137-138 | an evidence map that differs from the facts by holding 1 for true passes the comparison |
| LedgerChecker.AcceptedOperation | src/side_effects_lab/ledger.py:842-969 | every operation row of accepted tables has a legal history that ends in its cached state, and its attempts are those of the history |
| LedgerAcceptance.ExactAccounting | src/side_effects_lab/ledger.py:513-542 | in accepted tables proposal events are exactly the created sequences of operations, state-transition events those of transition rows, dispatch events those of attempts, prepared events those just before rows that entered PREPARED |
| LedgerAcceptance.EqualCounts | src/side_effects_lab/ledger.py:570-616 | these matches are one to one, so the counts are equal |
| LedgerAcceptance.ReferenceKind | src/side_effects_lab/ledger.py:971-1061 | every sequence number an accepted operation refers to is a managed event of that operation's own identity, and its kind tells which row refers to it |
| LedgerAcceptance.ManagedEventOwner | src/side_effects_lab/ledger.py:538-542 | every managed event of accepted tables belongs to an operation |
| LedgerAcceptance.DerivedDataDetermined | src/side_effects_lab/ledger.py:515-542 | two accepted table contents with the same events, identities and transition rows have the same operation rows, cached state and sequences included, and the same attempts |
| AcceptedHistories.AcceptedRun | src/side_effects_lab/ledger.py:842-969 | in accepted tables every action's transition rows count from one, form a well-shaped run with justified retries that ends in the cached state, and dispatch exactly the stored attempts, pairwise distinct |
| AcceptedHistories.ReachableRun | src/side_effects_lab/ledger.py:288-438 | the same holds of every action in every reachable ledger |
| AcceptedHistories.AcceptedAttempt | src/side_effects_lab/ledger.py:971-1023 | every attempt row of accepted tables is backed by two adjacent events of one tick, dispatch then entry into IN_FLIGHT, under its operation's identity |
| AcceptedFold.FoldSound | src/side_effects_lab/ledger.py:225-230 | any contiguous log folds, action by action, to rising sequence numbers after the proposal and to the flags its events state |
| AcceptedFold.OrderOfAccepted | src/side_effects_lab/ledger.py:445-453 | the log of accepted tables proposes exactly the listed operations, in the order they are listed in |
| AcceptedFold.AcceptedTells | src/side_effects_lab/ledger.py:509-542 | the log of accepted tables tells of an operation's proposal, of each of its transitions with its record, and of no other proposal or transition of that action |
| AcceptedFold.StatedFlags | src/side_effects_lab/ledger.py:1031-1042 | an event the checker has compared states its entry's flags if and only if no true flag is stored as the number 1 |
| AcceptedFold.AcceptedFoldExactly | src/side_effects_lab/ledger.py:472-542 | keyed and accepted tables show exactly what their log folds to if and only if every action's transitions follow its proposal in rising order and every true flag stands in the log as a Boolean |
| AcceptedUnreachable.LoosenedTables | src/side_effects_lab/models.py:137-138 | writing 1 for any one true flag of any transition in any reachable ledger's log leaves keyed and accepted tables that do not show their fold |
| AcceptedUnreachable.AcceptedNotReachable | src/side_effects_lab/ledger.py:472-542 | there are keyed and accepted tables that no sequence of calls on any fresh ledger leaves |
| AcceptedUnreachable.ReachableIds | src/side_effects_lab/ledger.py:288-438 | in every reachable ledger a transition row holds an attempt id if and only if the attempted state is IN_FLIGHT |
| AcceptedUnreachable.RelinkedTables | src/side_effects_lab/ledger.py:1174-1184 | writing any effect, workflow or fault id into any one event of a reachable ledger leaves keyed and accepted tables; when the event is managed no calls leave them |
| AcceptedUnreachable.ShowsFoldNotReachable | src/side_effects_lab/ledger.py:842-969 | there are keyed and accepted tables that show their fold and that no sequence of calls leaves |
| AcceptedDisorder.OrderIsNeeded | src/side_effects_lab/ledger.py:1025-1061 | there are keyed and accepted tables that fail nothing of being as written but the rising order of sequence numbers: every true flag is stored as a Boolean, yet they do not show their fold and no calls leave them |
| LiveReachability.UndoLast | src/side_effects_lab/ledger.py:215-438 | a live ledger that keeps the invariant and holds nothing no call writes has a last call: a shorter such ledger from which one append, registration, transition or dispatch leads back to it |
| LiveReachability.CallsTo | src/side_effects_lab/ledger.py:215-438 | every such live ledger is where some sequence of calls on the empty ledger leads |
| WrittenTables.CallKeepsTidy | src/side_effects_lab/ledger.py:649-813 | every call, on any tables, keeps rows stored in the order of their events, managed events without effect, workflow or fault link, and attempt ids exactly with attempted entries into IN_FLIGHT |
| ReachableExactly.ReachableAsWritten | src/side_effects_lab/ledger.py:649-813 | whatever calls were made, the tables left are keyed, accepted and as written: stored in order, plain links, exact facts, rising sequences, attempt ids only with dispatches |
| ReachableExactly.CallsThatWrote | src/side_effects_lab/ledger.py:472-542 | for keyed and accepted tables that are as written the calls that leave exactly these tables can be given |
| ReachableExactly.ReachableExactly | src/side_effects_lab/ledger.py:472-542 | tables are left by some sequence of calls on a fresh ledger of a run id if and only if they are keyed, accepted under that run id and as written |
| LiveInvariant.StepKeepsInv | src/side_effects_lab/ledger.py:215-438 | every call keeps the live ledger's invariant: contiguous ordered valid log, legal histories linked to their events, disjoint attempts, owned managed events |
| LiveInvariant.CommitKeepsInv | src/side_effects_lab/ledger.py:720-813 | committing one step, with its prepared or dispatch event, keeps that invariant |
| LedgerRefinement.EventsRead | src/side_effects_lab/ledger.py:225-230 | reading the event table of a representing ledger gives the live log |
| LedgerRefinement.MachineRead | src/side_effects_lab/ledger.py:842-969 | loading an action from a representing ledger gives the live machine and its whole history |
| LedgerRefinement.SnapshotsRead | src/side_effects_lab/ledger.py:445-453 | listing operations gives the live snapshots in order of proposal |
| LedgerSimulation.AppendSimulated | src/side_effects_lab/ledger.py:215-223 | an append on the tables is an append on the live ledger, refusals included |
| LedgerSimulation.RegisterSimulated | src/side_effects_lab/ledger.py:237-286 | registering on the tables is registering on the live ledger |
| LedgerSimulation.TransitionSimulated | src/side_effects_lab/ledger.py:288-338 | a transition call on the tables is one step of the live machine, committed violations included |
| LedgerSimulation.DispatchSimulated | src/side_effects_lab/ledger.py:340-438 | a dispatch on the tables is a dispatch on the live ledger, with its permit or its collision across actions |
| LedgerReachable.CallSimulated | src/side_effects_lab/ledger.py:123-231 | any one call, close and reopen included, has the live outcome and again represents the live state |
| LedgerReachable.ReplayRefinesLive | src/side_effects_lab/ledger.py:288-438 | for every sequence of calls on a fresh ledger, with close and reopen anywhere, every result, raised error and snapshot is that of the live ledger |
| LedgerReachable.WriterCheckerAgree | src/side_effects_lab/ledger.py:472-542 | every reachable state, failed calls included, is accepted by the checker under the ledger's run id and under no other |
| CallOutcomes.RegisterAnswered | src/side_effects_lab/ledger.py:237-286 | on any reachable ledger registering is refused for a known action, then for a tick that moves back, and otherwise logs exactly the proposal and shows the new snapshot; other actions read as before |
| CallOutcomes.TransitionAnswered | src/side_effects_lab/ledger.py:288-338 | on any reachable ledger a transition has exactly the told answer: the six refusals in order, or the move its cause brings, with every field of the logged events and of the new snapshot; other actions read as before |
| CallOutcomes.DispatchAnswered | src/side_effects_lab/ledger.py:340-438 | on any reachable ledger a permit is handed out if and only if the action is PREPARED or RETRYABLE with the cause that departs from there, under its identity, with a well-formed attempt id no action has used and a tick not moving back; both events and the snapshot are told field by field |
| CallOutcomes.AppendAnswered | src/side_effects_lab/ledger.py:215-223 | on any reachable ledger an append answers exactly as told, extends the log by the event or leaves it, and changes no action |
| CallOutcomes.ReadAnswered | src/side_effects_lab/ledger.py:440-453 | the reading calls answer with the log, the next sequence number, a snapshot, or all snapshots once each in order of proposal, and change nothing |
| CallOutcomes.HandleAnswered | src/side_effects_lab/ledger.py:166-209 | closing keeps the tables and refuses every call until reopening, which succeeds exactly under the ledger's own run id |
| CallOutcomes.NothingShown | src/side_effects_lab/ledger.py:137-164 | a new ledger is open and shows no event and no action |
| CallOutcomes.FactsSpelled | src/side_effects_lab/ledger.py:1186-1197 | the twelve facts of a state-transition event, with every key and every state and cause name written out |
| LedgerAtomicity.FailureAtomicity | src/side_effects_lab/ledger.py:308-438 | any error but an invalid transition leaves all tables unchanged; an invalid transition leaves them unchanged in VIOLATION and otherwise commits exactly one event, one row and state VIOLATION, whatever the candidate identity |
| LedgerAtomicity.KeysKept | src/side_effects_lab/ledger.py:544-617 | no call breaks a primary key, unique column or check |
| LedgerAtomicity.ReachableKeyed | src/side_effects_lab/ledger.py:544-617 | every reachable ledger's tables satisfy their keys |
| LedgerAtomicity.CallExtends | src/side_effects_lab/ledger.py:649-813 | any call on any tables is append-only: event, transition and attempt rows stay as a prefix, and every operation keeps its identity and created sequence |
| LedgerAtomicity.RunExtends | src/side_effects_lab/ledger.py:649-813 | so are the tables between any two moments of any run |
| LedgerHistory.LogDeterminesView | src/side_effects_lab/ledger.py:445-453 | in every reachable ledger, folding the events alone gives exactly the snapshots read from the tables, in the same order |
| LedgerHistory.TransitionsFollowProposal | src/side_effects_lab/ledger.py:720-766 | in every reachable ledger an action's transitions have strictly increasing sequence numbers after its proposal |
| LedgerHistory.PermitsDistinct | src/side_effects_lab/ledger.py:383-432 | across all actions, failures and reopenings no attempt id gets two permits |
| LedgerHistory.PermitsAreStored | src/side_effects_lab/ledger.py:383-432 | every permit handed out names two adjacent events of equal tick under the action's registered identity, still present in every later state |
| LedgerHistory.RunGrows | src/side_effects_lab/ledger.py:649-687 | on the live ledger, later calls only extend the log, and keep issued attempt ids and registered identities |
| SQLiteLedgers.SQLiteLedger.constructor | src/side_effects_lab/ledger.py:544-629 | a created ledger holds its metadata row and four empty tables |
| SQLiteLedgers.SQLiteLedger.Rollback | src/side_effects_lab/ledger.py:631-641 | rollback restores all five tables as they were at the start of the transaction |
| SQLiteLedgers.SQLiteLedger.ReadEvents | src/side_effects_lab/ledger.py:225-230 | the loop over event rows returns every decoded event in order or the first error |
| SQLiteLedgers.SQLiteLedger.ReplayRows | src/side_effects_lab/ledger.py:862-941 | the loop that drives a fresh mutable machine over the stored rows yields the replayed machine and history, or fails where replay fails |
| SQLiteLedgers.SQLiteLedger.Load | src/side_effects_lab/ledger.py:842-969 | loading also compares the cached state, the attempt ordinals and the attempt ids with the replay |
| SQLiteLedgers.SQLiteLedger.Insert | src/side_effects_lab/ledger.py:649-687 | an event is inserted with the next sequence number and no earlier tick, or refused with the right error |
| SQLiteLedgers.SQLiteLedger.Persist | src/side_effects_lab/ledger.py:720-813 | one step writes its linked events, its transition row and the cached state |
| SQLiteLedgers.SQLiteLedger.AppendEvent | src/side_effects_lab/ledger.py:215-223 | the whole new ledger and the result or error are those of one append call |
| SQLiteLedgers.SQLiteLedger.RegisterOperation | src/side_effects_lab/ledger.py:237-286 | likewise for registering, rolled back on any error |
| SQLiteLedgers.SQLiteLedger.MakeTransition | src/side_effects_lab/ledger.py:288-338 | likewise for a transition, whose violation is committed before it is raised |
| SQLiteLedgers.SQLiteLedger.RecordDispatch | src/side_effects_lab/ledger.py:340-438 | likewise for a dispatch, rolled back as a whole on an attempt-id collision |
| SQLiteLedgers.SQLiteLedger.CheckAttempts | src/side_effects_lab/ledger.py:971-1023 | the loop over attempt rows accepts exactly consistent rows and collects their references |
| SQLiteLedgers.SQLiteLedger.CheckTransitions | src/side_effects_lab/ledger.py:1025-1061 | the loop over the history accepts exactly consistent events and collects their references |
| SQLiteLedgers.SQLiteLedger.ValidateContents | src/side_effects_lab/ledger.py:472-542 | the checker's loops decide acceptance of the stored tables |
| SQLiteLedgers.SQLiteLedger.Validate | src/side_effects_lab/ledger.py:455-470 | validation reports an integrity error exactly when the tables are not accepted |
| SQLiteLedgers.SQLiteLedger.NextEventSeq | src/side_effects_lab/ledger.py:211-213 | the next sequence number, or a closed-ledger error |
| SQLiteLedgers.SQLiteLedger.Events | src/side_effects_lab/ledger.py:225-230 | the decoded log, or the error of one events call |
| SQLiteLedgers.SQLiteLedger.GetOperation | src/side_effects_lab/ledger.py:440-443 | the snapshot of one action, or the error of that call |
| SQLiteLedgers.SQLiteLedger.ListOperations | src/side_effects_lab/ledger.py:445-453 | all snapshots in order of proposal, or the first error |
| SQLiteLedgers.SQLiteLedger.Close | src/side_effects_lab/ledger.py:205-209 | closing changes nothing but the handle |
| SQLiteLedgers.SQLiteLedger.Reopen | src/side_effects_lab/ledger.py:166-183 | a handle on the stored tables is kept exactly when they are accepted under the claimed run id |
| Scheduling.RunKeepsInv | src/side_effects_lab/clock.py:100-131 | in every state the queue is ranked by tick and ordinal and its ordinals are distinct; the clock has not moved back |
| Scheduling.ClockMonotone | src/side_effects_lab/clock.py:55-67 | the clock never moves back between any two moments of any interleaving |
| Scheduling.PopsIncrease | src/side_effects_lab/clock.py:120-131 | popped (tick, ordinal) pairs are strictly increasing over any interleaving of scheduling, pops and outside advances |
| Scheduling.PopRefusedExactly | src/side_effects_lab/clock.py:120-128 | a pop is refused if and only if some queued item lies before the clock, and a refused call changes nothing |
| Scheduling.StaleForever | src/side_effects_lab/clock.py:124-128 | once an outside advance has passed a queued item, every later pop is refused |
| Scheduling.RunConserves | src/side_effects_lab/clock.py:100-131 | every item scheduled is popped or still queued, exactly once |
| Scheduling.QueueIsStableSort | src/side_effects_lab/clock.py:100-114 | in every state the queue is the scheduled and not yet popped items, sorted by tick with ties in order of scheduling |
| Scheduling.DrainExact | src/side_effects_lab/clock.py:120-131 | draining returns the whole queue in that order and leaves the clock at the maximum of its start and the last tick, exactly when nothing queued is stale |
| SchedulingLaws.ScheduleRefusedExactly | src/side_effects_lab/clock.py:100-118 | scheduling at a tick is refused exactly when it is negative or past, after a delay exactly when that is negative, and then changes nothing |
| SchedulingLaws.ScheduledThenDrained | src/side_effects_lab/clock.py:100-131 | an item scheduled at a tick comes out at that tick with its payload, behind everything due no later and before everything else |
| SchedulingLaws.DelayWaitedOut | src/side_effects_lab/clock.py:116-118 | on an empty queue draining leaves the clock exactly the delay later and hands out the payload at that tick |
| SchedulingLaws.DueTickReached | src/side_effects_lab/clock.py:100-114 | on an empty queue draining leaves the clock at exactly the tick asked for |
| SchedulingLaws.AdvancePasses | src/side_effects_lab/clock.py:55-58 | advancing by some steps under a queued item refuses its pop if and only if the steps pass its tick |
| SchedulingLaws.MovePasses | src/side_effects_lab/clock.py:60-67 | the same for moving the clock to a tick |
| BinaryHeap.RootIsLeast | src/side_effects_lab/clock.py:123 | the root of the heap is no larger than any item |
| BinaryHeap.SiftDown | src/side_effects_lab/clock.py:113 | carrying one item up in place restores the heap and keeps its items |
| BinaryHeap.SiftUp | src/side_effects_lab/clock.py:129 | letting the hole sink in place and refilling it restores the heap and keeps its items |
| BinaryHeap.Push | src/side_effects_lab/clock.py:113 | pushing keeps the heap and adds exactly the item; payloads are never compared |
| BinaryHeap.Pop | src/side_effects_lab/clock.py:129 | popping returns the item strictly before all others and keeps the rest as a heap; payloads are never compared |
| Schedulers.LogicalClock.Advance | src/side_effects_lab/clock.py:55-58 | the clock moves by a positive number of steps or the call is refused |
| Schedulers.LogicalClock.AdvanceTo | src/side_effects_lab/clock.py:60-67 | the clock moves to a tick that is not behind it or the call is refused |
| Schedulers.DeterministicScheduler.Length | src/side_effects_lab/clock.py:97-98 | the length of the heap is the number of queued items |
| Schedulers.DeterministicScheduler.constructor | src/side_effects_lab/clock.py:88-91 | a new scheduler is empty over the clock it is given |
| Schedulers.DeterministicScheduler.ScheduleAt | src/side_effects_lab/clock.py:100-114 | the heap scheduler does what the stably sorted queue does, refusals included |
| Schedulers.DeterministicScheduler.ScheduleAfter | src/side_effects_lab/clock.py:116-118 | likewise relative to the shared clock |
| Schedulers.DeterministicScheduler.PopNext | src/side_effects_lab/clock.py:120-131 | likewise for a pop, which moves the shared clock to the popped tick |
| IdAllocation.PrintedIdValid | src/side_effects_lab/models.py:60-67 | every counter the cap lets through prints an id within 128 characters and inside the grammar, for any valid kind |
| IdAllocation.RefusedExactly | src/side_effects_lab/clock.py:167-197 | allocation fails exactly on an exhausted counter or a malformed kind, never in final validation, and then changes nothing |
| IdAllocation.IdTextExact | src/side_effects_lab/clock.py:181 | printed ids agree if and only if their names and counters do, although kinds may contain hyphens and digits |
| IdAllocation.CounterCountsGrants | src/side_effects_lab/clock.py:167-181 | each counter counts the ids granted for its own request over any run |
| IdAllocation.IdsMeetExactly | src/side_effects_lab/clock.py:167-181 | two granted ids are the same if and only if their names agree and their counters have come equally far |
| IdAllocation.IdsNeverRepeat | src/side_effects_lab/clock.py:167-181 | all attempt ids, and all effect ids across all kinds, issued by one allocator are pairwise distinct; an attempt id can meet an effect id only of the kind `attempt` |
| IdAllocation.RepeatExactly | src/side_effects_lab/clock.py:167-181 | over any requests to a new allocator some id is issued twice if and only if both an attempt id and an effect id of the kind `attempt` are requested |
| IdAllocation.AttemptMeetsEffect | src/side_effects_lab/clock.py:167-181 | the shortest such run: the first attempt id and the first effect id of the kind `attempt` are both `attempt-1` |
| AllocationRules.GrantedExactly | src/side_effects_lab/clock.py:167-197 | over any requests to a new allocator each is answered exactly as told by how often it was made before: refused for a malformed kind or after 18446744073709551615 grants, and otherwise granted its name and that count plus one |
| IdAllocation.RunScopedIdAllocator.NextAttempt | src/side_effects_lab/clock.py:167-171 | the object allocates as the counters say; only exhaustion is refused |
| IdAllocation.RunScopedIdAllocator.NextEffect | src/side_effects_lab/clock.py:173-181 | likewise per kind, and a refusal leaves the counters alone |
| Authority.VerdictExact | src/side_effects_lab/authority.py:414-463 | the verdict allows exactly without defects, stops exactly when expiry is the only defect of a passive check, and otherwise reports a defect no defect of higher precedence accompanies |
| Authority.DefectExact | src/side_effects_lab/authority.py:379-428 | each defect is found exactly when the grant and the request, compared as values, violate what it stands for |
| Authority.DecisionExact | src/side_effects_lab/authority.py:365-463 | the decision in terms of the grant and the request: ALLOW if and only if nothing is wrong, SAFE_STOP if and only if a passive check fails on expiry alone, and otherwise the reported reason is wrong and nothing of higher precedence is |
| Authority.FlagsKept | src/side_effects_lab/authority.py:465-490 | the evidence map holds each comparison under its own key |
| Authority.StoredFlagsAgree | src/side_effects_lab/authority.py:465-490 | the four comparisons that are recomputed from ticks, counts, authority ids and digests agree with what the map stores of them |
| Authority.FactsKept | src/side_effects_lab/authority.py:465-490 | the evidence map holds each identifier, digest, tick and count under its own key |
| Authority.ParametersMatchExactly | src/side_effects_lab/authority.py:393-397 | the parameters match if and only if they are the same mapping |
| Authority.DecisionsAccepted | src/side_effects_lab/authority.py:255-316 | a decision is made exactly for valid contracts, and its own constructor accepts it: matrix row, exact keys, typed fields, no URL |
| Authority.OutcomeRecomputable | src/side_effects_lab/authority.py:465-497 | disposition, reason, target and cause are recomputed from the evidence map alone, without its `disposition` and `reason` |
| Authority.AllowSurvives | src/side_effects_lab/authority.py:398-399 | an ALLOW survives any lower tick and any lower committed count |
| Authority.RefusalDrivesMachine | src/side_effects_lab/state_machine.py:277-286 | a VIOLATION decision drives a machine in any other state to VIOLATION under its unchanged identity, without raising |
| Authority.AllowedMoves | src/side_effects_lab/authority.py:89-95 | an authorization moves exactly a machine in PROPOSED, a safe stop exactly one in AUTHORIZED or RETRYABLE |
| AuthorityRules.AnsweredExactly | src/side_effects_lab/authority.py:337-363 | a check is answered if and only if grant and request are well formed, by positions and code points |
| AuthorityRules.DecidedExactly | src/side_effects_lab/authority.py:365-463 | the one reason of every decision as a function of grant, request and the digest of the intent's text, in the order of precedence written out, with the disposition and transition that reason brings |
| AuthorityRules.AllowsExactly | src/side_effects_lab/authority.py:365-432 | ALLOW if and only if identity, authority, subject, service, operation, digests, parameters and any compensation agree and, unless read-only, neither count nor tick has run out |
| AuthorityRules.AllowedExactly | src/side_effects_lab/authority.py:433-446 | an allowed check is AUTHORIZED with its transition exactly for an AUTHORIZE check, READ_ONLY_ALLOWED exactly for a read-only one, and otherwise REVALIDATED without a transition |
| AuthorityRules.EvidenceWorded | src/side_effects_lab/authority.py:465-490 | kind, disposition and reason stand in the evidence in the contract's words |
| AuthorityRules.IntentPrinted | src/side_effects_lab/authority.py:378 | the digest is recomputed over the intent's operation, parameters and service, in this order, as canonical text |

## Left out

- File-system and SQLite plumbing: run-root and database-file checks, permissions, `_connect`, pragmas, `quick_check`; only keys, checks, references, ordering and rollback of SQLite are modelled.
- Several handles on one database: one ledger object at a time holds the tables, so `BEGIN IMMEDIATE` never waits; reopening replaces the handle, and a refused reopening leaves it closed.
- 64-bit limits of SQLite integers and recursion limits: integers are unbounded.
- CPython's limit of 4300 digits on conversions between integers and text: `dumps` and `loads` raise on longer integers, which `CanonicalJson.RoundTrip` covers as if they printed.
- SHA-256: digests enter only as an arbitrary function of canonical text, with no claim of collision freedom; `event_digest`, `canonical_digest` and `make_run_id` are therefore absent.
- UTF-8: texts are sequences of Unicode scalar values, so the error for unpaired surrogates cannot arise.
- Column typing: states, causes, kinds and the evidence flags are typed columns, so rows holding unknown names or other numbers, which the program rejects on reading, are not representable.
- LedgerTables.EventRowExact: the grammars of the identifiers an event links to (action, operation, authority, attempt, effect, workflow and fault ids and the digest) are not part of event validity, so neither appending nor reading an event checks them.
- Identifier grammars otherwise: evidence ids, the attempt ids given to a dispatch or stored as attempts, effect kinds, allocated ids and the identifiers of authority contracts are checked; the identities given to the ledger are opaque strings with equality.
- Argument type checks and negative ticks of ledger calls: excluded by types.
- Enum members and contract models inside `_normalize`: they reduce to their value or to a dictionary first.
- Evidence keys of an authority decision: the 25 names are an enumeration, so a map with a foreign key, which the constructor rejects, is not representable; a missing key is.
- Revalidation of bypass-constructed contracts: an invalid grant or request gives no decision, without modelling each raised error.
- Payload types of the scheduler: payloads are one opaque type.
- `FaultSpec`, `FaultTrigger`, claims, the command line and schema generation: validators and presentation that would add only easy members.
