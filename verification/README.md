# Verification of the Hermes kernel's attempt ledger, trust encodings and skill activation

A Dafny model of the parts of the Hermes MCP wrapper on which failover, spending, signatures and skill
publication rest, with proofs about all inputs, all runs and all interleavings.

* **The durable attempt ledger** (`Ledger*.dfy`, `SubmitFence.dfy`, `OutboxPaging.dfy`, `Payload*.dfy`).
  `LedgerTables` holds the rows, the append-only outbox and what one attempt's facts say. `LedgerChecks` states
  what `_checked_plan` demands. `LedgerWrites` lists the twelve row changes all transactions are made of and when
  each may be issued. `LedgerOps` gives, for each public operation, its
  answer and the database it commits; `LedgerService.AttemptLedger` is the object itself, with its
  tables as fields, changed statement by statement and rolled back where the code rolls back, each method proved
  to do what `LedgerOps` says and to keep the object valid.
  `LedgerChains` proves that every operation is a chain of allowed row changes, `LedgerInvariant`,
  `LedgerHistory` and `LedgerBudget` what every row change keeps, and `LedgerRuns`, `LedgerClock`,
  `LedgerReplay`, `LedgerFused` and `LedgerKeys` what therefore holds of every run. `LedgerAnswers`,
  `LedgerEvidence`, `LedgerMoves`, `LedgerEndings` and `LedgerArguments` say when each operation answers what and
  what it then leaves, in terms of the rows, the plan, the clocks and the log alone, so that no operation is
  measured by its own definition; `PayloadForm` does the same for stored payloads. `LedgerLimits`,
  `LedgerSpending`, `LedgerBreaker` and `SubmitFence` give the exact condition and a concrete case where a property
  stops.
* **Trust encodings.** `CanonicalText`, `CanonicalProofs` and `CanonicalReading` cover TCJSON_V1; string escapes
  follow section 7 of RFC 8259. `CanonicalReader` reads whole canonical texts back with a reader of its own.
  `Base64Url` covers the canonical decoder of section 5 of RFC 4648, symbol by symbol and bit by bit.
* **Skill activation.** `SkillActivation` is the coordinator's transaction on a directory map with a fault
  possible at every effect. `RuntimeFence` interleaves transactions with run admissions, prompt builds and exits,
  and shows that every outcome of the transaction is a path of its steps.

Clocks, drawn identifiers and the points at which an effect raises are parameters. Each `BEGIN IMMEDIATE` block
is one atomic step. An exception inside a transaction is a `Failed` reply with the tables rolled back. SHA-256
of a plan, of a witness record or of a package is the hashed value itself; the payload hash is an arbitrary
function.

Findings, each with its exact condition:

* `recover_and_transition_once` does not check that the new reservation is a safe integer, unlike the ordinary
  precheck. For a plan without a budget it can commit a task that `_checked_plan` refuses from then on.
* `close_terminal_if_active` with cost evidence on a cancel-requested attempt raises unless a cost fact with that
  very evidence exists, and an explicit cost source fits the row: the evidence update excludes the state
  `cancel_requested`.
* Evidence of an unknown cost on a running attempt whose cost is known raises after its writes and is rolled back,
  unless a cost fact already reports an unknown cost: the fact it appends contradicts the row it leaves.
* Recording a cost or closing with one never compares it with the budget. The reservation exceeds the budget exactly while the last
  attempt's reported cost is more than the budget less what the earlier attempts reserve, and a call takes it
  there exactly when the cost it sets is more than the budget less what the task reserves for its other attempts.
* The wall clock is read before `BEGIN IMMEDIATE`, so under concurrent callers commits need not be stamped in
  order even if the clock is monotone, and `_circuit_open` then raises. It raises exactly when a selected row was
  created after the caller's reading or before its predecessor.
* `canonicalize` lets a raw UnicodeEncodeError escape where its docstring promises SkillTrustError, exactly for
  printable values that hold a lone surrogate in a string or a key.
* With the wall clock below an attempt's creation time, the 750 ms cap makes one returned wait too short.
* `publish_skill` documents that nothing is left behind on any failure. After the directory swap a failing
  retention move or post-write check leaves the new directory live, and the coordinator does not restore it,
  because publish raised. It leaves something behind exactly after those two faults, after a failing move back of
  the prior directory, or when deleting the staged one fails too.

## Model

| member | source | states |
|---|---|---|
| `LedgerRuns.ReachableIsSound` | engines/hermes_kernel/mcp_wrapper/attempt_ledger.py:1393-1704 | after any sequence of operations and process restarts: every row of every task is the fold of its facts, the witness index equals the one rebuilt from the log, each tool fence belongs to its task's last, dispatched attempt, every remembered answer is still true, budgets hold |
| `LedgerRuns.ActiveIsNeverCorrupt` | engines/hermes_kernel/mcp_wrapper/attempt_ledger.py:1359-1704 | at the start of any operation in any run, `_active` finds corruption exactly when a running task's reservation has left the safe integers, and that only after a recovery of a plan without a budget |
| `LedgerRuns.BudgetHolds` | engines/hermes_kernel/mcp_wrapper/attempt_ledger.py:1739-1761 | in every reachable state, whatever the status, a task's reservation is the sum over its attempts, and exceeds its budget by no more than the last reported cost exceeds that provider's own ceiling |
| `LedgerSpending.OverBudgetIff` | engines/hermes_kernel/mcp_wrapper/attempt_ledger.py:1739-1761 | on a committed state a task with a budget reserves more than it if and only if its last attempt's reported cost is more than the budget less what its earlier attempts reserve |
| `LedgerSpending.BudgetExceededIff` | engines/hermes_kernel/mcp_wrapper/attempt_ledger.py:3158-3193 | the same for every reachable state |
| `LedgerSpending.StepExceedsIff` | engines/hermes_kernel/mcp_wrapper/attempt_ledger.py:3024-3135 | for every operation: a call that commits a cost (record_cost, complete, terminal poll, terminal close, fused evidence) leaves its task over the budget if and only if the cost it is about to set exceeds the budget less what the task reserves for its other attempts, read off before the call; every other operation leaves the comparison of every task as it was |
| `LedgerSpending.FusedMovesOn` | engines/hermes_kernel/mcp_wrapper/attempt_ledger.py:2205-2298 | a fused transition moves the task to the successor's ceiling on top of exactly the evidence's amount |
| `LedgerSpending.PollSettles` | engines/hermes_kernel/mcp_wrapper/attempt_ledger.py:3195-3340 | a terminal poll changes nothing, or closes the attempt and puts its own cost into the row only when the attempt has no cost fact yet, and keeps the row's otherwise |
| `LedgerSpending.CloseSettles` | engines/hermes_kernel/mcp_wrapper/attempt_ledger.py:3427-3516 | a terminal close changes nothing, or with evidence leaves the known cost of the row or, if it has none, the evidence's, and moves no other reservation |
| `LedgerRuns.NoReplayAfterSideEffect` | engines/hermes_kernel/mcp_wrapper/attempt_ledger.py:2014-2015 | once an attempt dispatched or fenced a tool, no continuation of the run ever has an attempt of larger epoch for that task |
| `LedgerRuns.EndsAbsorb` | engines/hermes_kernel/mcp_wrapper/attempt_ledger.py:2530-2564 | once a task is not running, no later step submits it, dispatches it, fences a new tool or mints a successor, and after its end none of its rows changes |
| `LedgerRuns.StepReaches` | engines/hermes_kernel/mcp_wrapper/attempt_ledger.py:537-645 | every operation of the ledger commits a chain of row changes each of which is allowed where it is issued and stamped with the operation's one clock reading |
| `LedgerRuns.RunKeepsSound` | engines/hermes_kernel/mcp_wrapper/attempt_ledger.py:537-645 | any run from a sound state stays sound and never undoes identities, records, side effects or ends |
| `LedgerRuns.EffectNeedsReadiness` | engines/hermes_kernel/mcp_wrapper/attempt_ledger.py:1894-1947 | a submit, dispatch or tool fence is let through only for the exact active tuple of a running task whose wall fence and monotonic guard have passed |
| `LedgerRuns.OthersHaveNoEffect` | engines/hermes_kernel/mcp_wrapper/attempt_ledger.py:1778-1799 | no other operation, and no replayed answer, lets an outside effect through |
| `LedgerInvariant.WriteKeepsInv` | engines/hermes_kernel/mcp_wrapper/attempt_ledger.py:1393-1704 | each of the twelve row changes keeps every row of every task equal to the fold of its facts, for attempts past and present |
| `LedgerInvariant.ChainKeepsInv` | engines/hermes_kernel/mcp_wrapper/attempt_ledger.py:1393-1704 | so does every chain of them |
| `LedgerInvariant.SucceedKeepsInv` | engines/hermes_kernel/mcp_wrapper/attempt_ledger.py:2041-2101 | closing the predecessor, inserting the successor, moving active_control and appending the transition fact and witness together keep the event-sourcing invariant, recovery fact included |
| `LedgerInvariant.LiveIsLast` | engines/hermes_kernel/mcp_wrapper/attempt_ledger.py:1359-1375 | the attempt active_control names is the task's last one, and is active and mutable exactly while the task runs |
| `LedgerFold.CheckedPlanAccepts` | engines/hermes_kernel/mcp_wrapper/attempt_ledger.py:1393-1704 | on the active row of any committed state `_checked_plan` returns exactly when the task's reservation is a safe integer |
| `LedgerFold.AttemptChain` | engines/hermes_kernel/mcp_wrapper/attempt_ledger.py:1410-1444 | epochs run 0..transitions_used without gaps, active_control names the last attempt, all earlier ones are closed, and transitions_used never exceeds the provider count minus one |
| `LedgerFold.PositionsIncrease` | engines/hermes_kernel/mcp_wrapper/attempt_ledger.py:1604-1610 | provider positions strictly increase along a task's attempts, so no provider is tried twice |
| `LedgerFold.CostConservation` | engines/hermes_kernel/mcp_wrapper/attempt_ledger.py:1739-1761 | a task's reservation is the sum of its attempts' reservations, in every status |
| `LedgerFold.EarlierHaveEnded` | engines/hermes_kernel/mcp_wrapper/attempt_ledger.py:1683-1700 | a predecessor has ended, never dispatched and never completed |
| `LedgerHistory.WritePersists` | engines/hermes_kernel/mcp_wrapper/attempt_ledger.py:1706-1717 | no row change alters an attempt's identity or fence, reopens a closed attempt, clears a dispatch or cancel flag, rewrites a log entry, a witness, a remembered answer or a tool fence |
| `LedgerHistory.WriteAbsorbs` | engines/hermes_kernel/mcp_wrapper/attempt_ledger.py:3380-3424 | no row change touches a task that has ended, or adds an attempt or tool fence to one that stopped running |
| `LedgerHistory.OneCompletion` | engines/hermes_kernel/mcp_wrapper/attempt_ledger.py:3417-3423 | each task gets at most one completion fact, ever |
| `LedgerHistory.CompletionIsLast` | engines/hermes_kernel/mcp_wrapper/attempt_ledger.py:3417-3423 | a completion fact belongs to the last attempt of a finished task and is its only one |
| `LedgerHistory.SideEffectIsLast` | engines/hermes_kernel/mcp_wrapper/attempt_ledger.py:2510-2528 | an attempt with a dispatch flag or a tool fence is its task's last attempt |
| `LedgerHistory.WriteKeepsFences` | engines/hermes_kernel/mcp_wrapper/attempt_ledger.py:2510-2528 | every tool fence stays on its task's last attempt, whose dispatch flag is set |
| `LedgerHistory.TruthLasts` | engines/hermes_kernel/mcp_wrapper/attempt_ledger.py:2141-2169 | what a remembered answer says of the database stays the case: the successor row still holds the fence it names, a cancelled task has not resumed |
| `LedgerBudget.WriteKeepsBudget` | engines/hermes_kernel/mcp_wrapper/attempt_ledger.py:2032-2039 | closed attempts' reservations plus the last attempt's ceiling never exceed the budget |
| `LedgerBudget.ReservedWithinBudget` | engines/hermes_kernel/mcp_wrapper/attempt_ledger.py:3158-3193 | the reservation exceeds the budget at most by what the last reported cost exceeds its own ceiling; with no reported cost it does not exceed it |
| `LedgerBudget.WriteKeepsRange` | engines/hermes_kernel/mcp_wrapper/attempt_ledger.py:2411-2416 | a reservation leaves the safe integers only by the recovery of a task without a budget |
| `LedgerLimits.RecoveryUsableIff` | engines/hermes_kernel/mcp_wrapper/attempt_ledger.py:2411-2416 | after a recovery the successor is usable if and only if the new reservation is a safe integer, which the code does not check |
| `LedgerLimits.UnbudgetedRecoveryCorrupts` | engines/hermes_kernel/mcp_wrapper/attempt_ledger.py:2411-2416 | a concrete run in which that recovery leaves a task `_checked_plan` refuses ever after |
| `LedgerLimits.CostMayExceedBudget` | engines/hermes_kernel/mcp_wrapper/attempt_ledger.py:3158-3193 | a concrete run in which a reported cost above its ceiling takes the reservation above the budget; the exact condition is the three rows on LedgerSpending |
| `LedgerLimits.CancelledCloseIff` | engines/hermes_kernel/mcp_wrapper/attempt_ledger.py:3427-3516 | closing a cancel-requested attempt with cost evidence succeeds if and only if the row and a cost fact already hold that very evidence and an explicit cost source fits the row; otherwise it raises, CorruptLedger in the first case and an input error in the second, and writes nothing |
| `LedgerLimits.CancelHitsTheActiveTuple` | engines/hermes_kernel/mcp_wrapper/attempt_ledger.py:2530-2564 | a first ACK_CANCELLED hits the unique active tuple although active_control is not consulted; any ACK_CANCELLED, replayed too, names a task that no longer runs |
| `LedgerCircuit.CircuitDecidesHistory` | engines/hermes_kernel/mcp_wrapper/attempt_ledger.py:2853-2963 | on a committed state with a non-decreasing clock `_circuit_open` never raises and says open exactly when three failures of the provider anywhere in the log lie within 300000 ms and the last is less than 60000 ms old |
| `LedgerCircuit.BoundedScanRefinesHistory` | engines/hermes_kernel/mcp_wrapper/attempt_ledger.py:2855-2882 | scanning consecutive triples of the last 360000 ms decides the full-history rule |
| `LedgerCircuit.CandidatesProven` | engines/hermes_kernel/mcp_wrapper/attempt_ledger.py:2885-2949 | every row the indexed query returns passes every validation against the log and none is duplicated |
| `LedgerCircuit.TransitionsAreUnique` | engines/hermes_kernel/mcp_wrapper/attempt_ledger.py:2915-2921 | no predecessor and no successor occurs in two transition facts |
| `LedgerCircuit.WriteKeepsIndex` | engines/hermes_kernel/mcp_wrapper/attempt_ledger.py:811-825 | each row change inserts a witness exactly when it appends a transition fact, so the index equals the one rebuilt from the log |
| `LedgerCircuit.TransitionIsProven` | engines/hermes_kernel/mcp_wrapper/attempt_ledger.py:2791-2850 | each transition fact agrees with the rows, providers, identity facts and creation times of both attempts it names |
| `LedgerClock.BreakerDecidesHistory` | engines/hermes_kernel/mcp_wrapper/attempt_ledger.py:2853-2963 | in every run whose commits are stamped in order the index equals the log's transitions, the breaker never raises and decides the full-history rule; for other runs see LedgerBreaker.BreakerOnAnyClock |
| `LedgerBreaker.BreakerOnAnyClock` | engines/hermes_kernel/mcp_wrapper/attempt_ledger.py:2853-2963 | in every reachable state, with any clock readings whatever: `_circuit_open` raises if and only if its scope is malformed or some selected row was created after now or before its predecessor; otherwise it says open if and only if a failure of the provider less than 60000 ms old ends 300000 ms with at least three of its failures, anywhere in the log and in whatever order |
| `LedgerBreaker.ScanDecides` | engines/hermes_kernel/mcp_wrapper/attempt_ledger.py:2855-2882 | sorting the rows of the last 360000 ms and scanning consecutive triples decides that rule over all rows, in whatever order they were inserted |
| `LedgerBreaker.SelectedOnce` | engines/hermes_kernel/mcp_wrapper/attempt_ledger.py:2853-2963 | no two selected rows share a predecessor or a successor, whatever the clock did |
| `LedgerClock.MigrationSucceeds` | engines/hermes_kernel/mcp_wrapper/attempt_ledger.py:841-932 | in every reachable state the index migration succeeds, reconciling an existing table or rebuilding a missing one |
| `LedgerScans.CommittedIsMigratable` | engines/hermes_kernel/mcp_wrapper/attempt_ledger.py:841-932 | every validation of the migration holds on a committed state, with and without the table already there |
| `LedgerClock.EffectsFollowFences` | engines/hermes_kernel/mcp_wrapper/attempt_ledger.py:1144-1190 | no run submits, dispatches or tool-fences a successor before 250 ms of wall time since its creation, its wall fence and its monotonic guard have passed, the guard being the stored one if there is one |
| `LedgerClock.NotReadyEnds` | engines/hermes_kernel/mcp_wrapper/attempt_ledger.py:1163-1190 | in every run, one wait of the returned length ends NOT_READY unless the wall clock stands before the attempt's creation, and after a restart that lost the guard one further wait does |
| `LedgerClock.RunKeepsGuards` | engines/hermes_kernel/mcp_wrapper/attempt_ledger.py:1144-1161 | while the monotonic clock does not run backwards, every guard belongs to an attempt and lies no further ahead than that attempt's own fence delay |
| `SubmitFence.ReadyIffBothPassed` | engines/hermes_kernel/mcp_wrapper/attempt_ledger.py:1163-1190 | readiness is reported exactly when both fences have passed, and a wait is 1 to 750 ms |
| `SubmitFence.OneWaitSuffices` | engines/hermes_kernel/mcp_wrapper/attempt_ledger.py:1182-1190 | one wait of the returned length suffices if and only if neither clock had more than 750 ms left |
| `SubmitFence.WaitEndsNotReady` | engines/hermes_kernel/mcp_wrapper/attempt_ledger.py:1163-1190 | if the wall clock has not gone below creation time one wait ends NOT_READY, also with a rebuilt guard table |
| `SubmitFence.ClockBelowCreationNeedsMoreWaits` | engines/hermes_kernel/mcp_wrapper/attempt_ledger.py:1183-1184 | a concrete case below the creation time in which the 750 ms cap is too short |
| `LedgerReplay.TransitionReplays` | engines/hermes_kernel/mcp_wrapper/attempt_ledger.py:2301-2335 | once transition_once succeeded under a key, in any later state of any run every call that claims the key, with any tuple, successor or failure and through either operation of the namespace, writes nothing; a well-formed transition_once answers the original successor and fence |
| `LedgerReplay.RecoveryReplays` | engines/hermes_kernel/mcp_wrapper/attempt_ledger.py:2338-2364 | the same for recover_and_transition_once and its recovery id, whatever tuple, failure or target the later call names |
| `LedgerReplay.SpentWritesNothing` | engines/hermes_kernel/mcp_wrapper/attempt_ledger.py:1778-1799 | in any state whatever, a call under a remembered key of any of the six namespaces changes neither the tables nor the guards |
| `LedgerReplay.ObservationReplays` | engines/hermes_kernel/mcp_wrapper/attempt_ledger.py:1962-1965 | once an observation is recorded, every later one under its key answers that very observation and writes nothing |
| `LedgerKeys.WriteSpends` | engines/hermes_kernel/mcp_wrapper/attempt_ledger.py:1789-1799 | a call that changes anything under a key remembers the key in the same commit |
| `LedgerKeys.KeyWritesOnce` | engines/hermes_kernel/mcp_wrapper/attempt_ledger.py:1778-1799 | of any two calls of one run that claim the same key at most one changes the database, whatever their other arguments; so one key never mints two attempts |
| `LedgerReplay.FusedReplays` | engines/hermes_kernel/mcp_wrapper/attempt_ledger.py:2172-2216 | the same for the fused transition; a replay is never refused for a missing observation binding |
| `LedgerFused.SecondPrecheck` | engines/hermes_kernel/mcp_wrapper/attempt_ledger.py:2205-2298 | after the cost evidence the second precheck can only be eligible, find the budget exceeded, or find the sum out of range and raise |
| `LedgerFused.FusedRejectionWritesNothing` | engines/hermes_kernel/mcp_wrapper/attempt_ledger.py:2205-2298 | a fused call that is rejected or raises wrote not one row |
| `LedgerFused.FusedTransitionCommitsAll` | engines/hermes_kernel/mcp_wrapper/attempt_ledger.py:2205-2298 | TRANSITIONED commits at once, and nothing else: the evidence's cost fact with the attempt's cost column and both reservations, the bound observation, the closed predecessor, the successor with its fence, transitions_used, active_control, the transition fact, its witness and the idempotency rows |
| `LedgerFused.FusedRefusalKeepsObservation` | engines/hermes_kernel/mcp_wrapper/attempt_ledger.py:2228-2262 | OBSERVATION_RECORDED commits the evidence, the bound observation and the remembered reply; no attempt is inserted or closed, active_control and the witness index stand, and of the rows only the attempt's cost and the two reservations move |
| `LedgerFused.CostKeepsCircuit` | engines/hermes_kernel/mcp_wrapper/attempt_ledger.py:2853-2963 | recording a cost changes nothing the breaker looks at |
| `LedgerAnswers.CancelAnswers` | engines/hermes_kernel/mcp_wrapper/attempt_ledger.py:2530-2564 | in any sound state a first cancel request is acknowledged if and only if the tuple is the last attempt of a running task, dispatched or not; it is already terminal for any other row with that tuple, and uncertain if there is no such row; an acknowledged cancel changes that attempt's flags, its task's status and the log, any other answer only the remembered answers |
| `LedgerAnswers.CancelIfActiveAnswers` | engines/hermes_kernel/mcp_wrapper/attempt_ledger.py:3358-3378 | request_cancel_if_active accepts if and only if the tuple is usable and its deadline is ahead |
| `LedgerAnswers.SubmitAnswers` | engines/hermes_kernel/mcp_wrapper/attempt_ledger.py:1894-1947 | a fresh well-formed submit is let through if and only if the tuple is the last attempt of a running task within the safe integers, names that row's own provider and plan, now is before the attempt deadline and that no later than the task's, and both fences have passed; it is told to wait if only the fences have not |
| `LedgerAnswers.DispatchAnswers` | engines/hermes_kernel/mcp_wrapper/attempt_ledger.py:3141-3156 | the dispatch is marked if and only if the tuple is usable, before its deadline, not marked yet and past both fences; the flag and one dispatch fact are all that changes |
| `LedgerAnswers.ToolAnswers` | engines/hermes_kernel/mcp_wrapper/attempt_ledger.py:2477-2528 | under a stored fence the digest decides between repeat and reuse; a new fence needs the usable tuple, time left and both fences, and the first one sets the dispatch flag with its fact |
| `LedgerAnswers.AdmissionAnswers` | engines/hermes_kernel/mcp_wrapper/attempt_ledger.py:1730-1770 | a new task is admitted at its first provider's ceiling if and only if the deadline is ahead and the ceiling within the budget; otherwise a tombstone is left; a known task raises |
| `LedgerAnswers.ObservationAnswers` | engines/hermes_kernel/mcp_wrapper/attempt_ledger.py:1949-1979 | a fresh observation is recorded if and only if the tuple is usable before its deadline, as one fact and no row change |
| `LedgerAnswers.EventAnswers` | engines/hermes_kernel/mcp_wrapper/attempt_ledger.py:2965-2981 | an event is appended if and only if the tuple is usable before its deadline, as one fact and no row change |
| `LedgerAnswers.StateAnswers` | engines/hermes_kernel/mcp_wrapper/attempt_ledger.py:3342-3356 | a state change is kept if and only if the tuple is usable before its deadline, in the row and as one fact |
| `LedgerAnswers.CostAnswers` | engines/hermes_kernel/mcp_wrapper/attempt_ledger.py:3158-3193 | a cost is kept if and only if the tuple is usable before its deadline, no known cost would be forgotten, the new reservation is a safe integer and the source fits; both reservations move by the difference |
| `LedgerEvidence.EvidenceMeans` | engines/hermes_kernel/mcp_wrapper/attempt_ledger.py:3024-3139 | cost evidence on a running task is accepted if and only if all amounts its cost facts report agree with each other and with it, the new reservation is a safe integer, and an unknown cost after a known one was reported before |
| `LedgerMoves.PrecheckMeans` | engines/hermes_kernel/mcp_wrapper/attempt_ledger.py:2002-2039 | the precheck of both transitions is eligible if and only if the plan hash agrees, nothing was dispatched, there is time and a transition left, the successor stands later in the plan, the breaker's rows fit the clock and no three failures of the provider have tripped it, and the amount is a safe integer within the budget; it raises and refuses for exactly the stated reasons |
| `LedgerMoves.OneReason` | engines/hermes_kernel/mcp_wrapper/attempt_ledger.py:2002-2039 | no two refusal reasons apply to the same call, and none to one that may move or meets a corrupt state |
| `LedgerMoves.TransitionAnswers` | engines/hermes_kernel/mcp_wrapper/attempt_ledger.py:2301-2335 | a well-formed transition_once under no key or a new one answers TRANSITIONED if and only if that condition holds, raises exactly on the corrupt cases and answers nothing otherwise; and then the predecessor is closed, the successor stands at its ceiling behind its fence and guard, the task and active_control moved on, and the log ends with the transition; otherwise nothing changed |
| `LedgerMoves.FusedAnswers` | engines/hermes_kernel/mcp_wrapper/attempt_ledger.py:2172-2298 | for every reason: a fresh fused call is refused without a trace, or keeps its observation, for that reason if and only if the reason's own condition holds; it moves on if and only if the evidence is accepted and the amount with it is safe and within the budget |
| `LedgerMoves.RecoveryAnswers` | engines/hermes_kernel/mcp_wrapper/attempt_ledger.py:2338-2475 | a fresh recovery answers stale, terminal, barrier, budget, corrupt or recovered each if and only if its condition holds; it goes to the provider asked for if one was named and stands later in the plan, and otherwise to the one right behind the current provider in the plan; successor row, fence, guard, recovery fact and transition fact name that provider; a dispatched or expired attempt ends as uncertain |
| `LedgerEndings.CompleteAnswers` | engines/hermes_kernel/mcp_wrapper/attempt_ledger.py:3380-3424 | completion ends a usable attempt before its deadline, with the outcome and the final cost given in row, task and fact, unless the amount leaves the safe integers or a given source does not fit |
| `LedgerEndings.CloseAnswers` | engines/hermes_kernel/mcp_wrapper/attempt_ledger.py:3427-3516 | a terminal close ends an attempt if and only if it is the last of a running or cancelled task, the evidence is accepted and a given source fits; the row gets the failure given, the task the outcome given, and the log the evidence, the failure and a completion with that outcome and cost; otherwise it answers nothing or raises |
| `LedgerEndings.PollAnswers` | engines/hermes_kernel/mcp_wrapper/attempt_ledger.py:3195-3340 | a terminal poll of a finished attempt answers committed for its task's own outcome and nothing for any other; of a running one it ends the attempt with the outcome, failure and cost given, or raises for a contradicting or unsafe cost or a source that does not fit |
| `LedgerEndings.PreDispatchAnswers` | engines/hermes_kernel/mcp_wrapper/attempt_ledger.py:3542-3589 | an attempt that dispatched or is out of time ends as uncertain, one behind its fence keeps waiting, any other is orphaned, in row, task, control and log alike |
| `LedgerEndings.EndingLeaves` | engines/hermes_kernel/mcp_wrapper/attempt_ledger.py:3195-3516 | whenever complete, close, poll or recover_pre_dispatch says that an attempt ended, row, task, active_control and the log's last fact hold the outcome and failure it was given; it says so without writing only for a poll of a task that had ended with that outcome |
| `LedgerEndings.PollRepeats` | engines/hermes_kernel/mcp_wrapper/attempt_ledger.py:3246-3258 | once any of these calls ended an attempt, in every continuation of the run a well-formed poll of it answers committed for the same outcome and nothing for another, and writes nothing |
| `LedgerEndings.ReachableOutcomes` | engines/hermes_kernel/mcp_wrapper/attempt_ledger.py:3246-3258 | in every reachable state the newest completion fact of a finished task's last attempt has the task's outcome |
| `LedgerEndings.LatestIsNewest` | engines/hermes_kernel/mcp_wrapper/attempt_ledger.py:2984-2994 | the source a completion falls back to is that of the attempt's newest cost fact, and none if it has no cost fact |
| `LedgerArguments.AnswerIsRepeated` | engines/hermes_kernel/mcp_wrapper/attempt_ledger.py:1778-1799 | once a submit, a cancel or a terminal close answered under a key, in every continuation of any run every well-formed call of that operation under the key, whatever tuple it names, gets that very answer and writes nothing |
| `LedgerArguments.MalformedAnswers` | engines/hermes_kernel/mcp_wrapper/attempt_ledger.py:1089-1132 | a malformed call of any operation is answered by its first refused argument, in any state, and leaves tables and guards as they were |
| `LedgerService.AttemptLedger.CreateInitial` | engines/hermes_kernel/mcp_wrapper/attempt_ledger.py:1730-1770 | admission writes task, attempt, control and identity fact, or a rejected tombstone, or nothing for an existing task |
| `LedgerService.AttemptLedger.SubmitAttempt` | engines/hermes_kernel/mcp_wrapper/attempt_ledger.py:1894-1947 | the statements end in exactly the reply, tables and guards of the submit operation the run theorems are about, idempotent duplicates, stale tuples and unready fences included |
| `LedgerService.AttemptLedger.MarkDispatchAttempted` | engines/hermes_kernel/mcp_wrapper/attempt_ledger.py:3141-3156 | marks at most once, only with the deadline ahead and both fences passed, and ends in exactly the reply, tables and guards of the operation the run theorems are about |
| `LedgerService.AttemptLedger.AuthorizeToolForward` | engines/hermes_kernel/mcp_wrapper/attempt_ledger.py:2477-2528 | a repeated call id answers from its stored digest; a first fence also sets the dispatch flag, in the code's statement order; reply, tables and guards are those of the operation function |
| `LedgerService.AttemptLedger.RecordObservation` | engines/hermes_kernel/mcp_wrapper/attempt_ledger.py:1949-1979 | one observation fact and one remembered result per key, or neither; a duplicate answers with the stored observation alone; reply and tables are those of the operation function, and a valid ledger stays valid |
| `LedgerService.AttemptLedger.AppendEventIfActive` | engines/hermes_kernel/mcp_wrapper/attempt_ledger.py:2965-2981 | an event is appended only under the exact active tuple before the deadline; otherwise nothing is written |
| `LedgerService.AttemptLedger.MutateStateIfActive` | engines/hermes_kernel/mcp_wrapper/attempt_ledger.py:3342-3356 | the attempt's state and its state fact change together, under the exact active tuple only |
| `LedgerService.AttemptLedger.RecordCostIfActive` | engines/hermes_kernel/mcp_wrapper/attempt_ledger.py:3158-3193 | attempt, task and cost fact move together; a payload found invalid after the updates rolls all of them back |
| `LedgerService.AttemptLedger.CompareCosts` | engines/hermes_kernel/mcp_wrapper/attempt_ledger.py:3053-3060 | one pass over the cost facts finds exactly whether the known amounts agree with each other and the evidence, and whether one already carries it |
| `LedgerService.AttemptLedger.ApplyCostEvidence` | engines/hermes_kernel/mcp_wrapper/attempt_ledger.py:3024-3139 | reconciles evidence against all cost facts and the row, writes at most one cost fact, re-checks the whole task, and says exactly when it raises |
| `LedgerService.AttemptLedger.Precheck` | engines/hermes_kernel/mcp_wrapper/attempt_ledger.py:2002-2039 | names the first barrier that refuses, the breaker's scan included, and writes nothing; which barrier that is, and that an open breaker refuses and a closed one does not, is LedgerMoves.PrecheckMeans |
| `LedgerService.AttemptLedger.TransitionOnce` | engines/hermes_kernel/mcp_wrapper/attempt_ledger.py:2301-2335 | the statements end in exactly the reply, tables and guards of the transition LedgerMoves.TransitionAnswers characterises; a replay answers from the durable row |
| `LedgerService.AttemptLedger.ObserveAndTransitionOnce` | engines/hermes_kernel/mcp_wrapper/attempt_ledger.py:2172-2298 | evidence, second precheck, observation and transition end in exactly the reply, tables and guards of the fused call LedgerMoves.FusedAnswers characterises, with the evidence rolled back where a later step raises |
| `LedgerService.AttemptLedger.RecoverAndTransitionOnce` | engines/hermes_kernel/mcp_wrapper/attempt_ledger.py:2338-2475 | the statements end in exactly the reply, tables and guards of the recovery LedgerMoves.RecoveryAnswers characterises, the provider it moves on to included |
| `LedgerService.AttemptLedger.RecoverPreDispatch` | engines/hermes_kernel/mcp_wrapper/attempt_ledger.py:3542-3589 | the statements end in exactly the reply and tables of the operation LedgerEndings.PreDispatchAnswers characterises |
| `LedgerService.AttemptLedger.RequestCancel` | engines/hermes_kernel/mcp_wrapper/attempt_ledger.py:2530-2564 | the statements end in exactly the reply and tables of the cancel LedgerAnswers.CancelAnswers characterises: three row updates and a fact, or only the remembered answer |
| `LedgerService.AttemptLedger.RequestCancelIfActive` | engines/hermes_kernel/mcp_wrapper/attempt_ledger.py:3358-3378 | cancels the exact active tuple before its deadline, or writes nothing |
| `LedgerService.AttemptLedger.CompleteIfActive` | engines/hermes_kernel/mcp_wrapper/attempt_ledger.py:3380-3424 | closes attempt, task and control with the final cost and one completion fact, or writes nothing |
| `LedgerService.AttemptLedger.CloseTerminalIfActive` | engines/hermes_kernel/mcp_wrapper/attempt_ledger.py:3427-3516 | evidence, observation, close and remembered result in one commit with the outcome given, as LedgerEndings.CloseAnswers says; a step that raises after the evidence rolls everything back |
| `LedgerService.AttemptLedger.CompleteTerminalFromPoll` | engines/hermes_kernel/mcp_wrapper/attempt_ledger.py:3195-3340 | a repeated poll answers from the newest completion fact and writes nothing; a first one commits cost, observation and close together with the outcome polled, as LedgerEndings.PollAnswers says, or rolls back |
| `LedgerService.AttemptLedger.CheckFence` | engines/hermes_kernel/mcp_wrapper/attempt_ledger.py:1163-1190 | the readiness check answers from the stored guard or creates it on first sight |
| `LedgerService.AttemptLedger.MigrateV1ToV2` | engines/hermes_kernel/mcp_wrapper/attempt_ledger.py:841-932 | the migration accepts exactly the databases whose transition facts are proven and unrepeated and whose rows reconcile one for one; a rebuilt table equals the log's transitions; a refusal changes nothing; a valid ledger is accepted, and one that lost only its index comes out valid |
| `LedgerService.AttemptLedger.BindingMatches` | engines/hermes_kernel/mcp_wrapper/attempt_ledger.py:2104-2138 | the loop over the log finds the observation fact exactly when the key is bound to this observation |
| `LedgerScans.CheckedPlan` | engines/hermes_kernel/mcp_wrapper/attempt_ledger.py:1393-1704 | the loops that file the facts and re-derive rows and reservations accept exactly the declarative checks |
| `LedgerScans.FileFacts` | engines/hermes_kernel/mcp_wrapper/attempt_ledger.py:1473-1567 | one pass files every fact under its attempt, and stops exactly when some fact is malformed or foreign; a state payload is well formed whatever the order of its keys |
| `LedgerScans.AuthoritativeIdentity` | engines/hermes_kernel/mcp_wrapper/attempt_ledger.py:2791-2850 | one pass over the log proves an attempt's identity exactly when row and single identity fact agree |
| `LedgerScans.ScanCircuit` | engines/hermes_kernel/mcp_wrapper/attempt_ledger.py:2853-2963 | the loops with their seen-sets and the triple scan compute the declarative breaker |
| `OutboxPaging.PagesAreAPrefix` | engines/hermes_kernel/mcp_wrapper/attempt_ledger.py:2725-2749 | following nextCursor from 0, whatever is appended in between, the concatenated pages are exactly the rows up to the cursor in id order, and all of them when hasMore is false |
| `OutboxPaging.RowIdsIncrease` | engines/hermes_kernel/mcp_wrapper/attempt_ledger.py:2725-2749 | row ids strictly increase, so no row is delivered twice |
| `OutboxPaging.RowsAreComplete` | engines/hermes_kernel/mcp_wrapper/attempt_ledger.py:2725-2749 | every wanted fact of the log is among the rows |
| `OutboxPaging.Query` | engines/hermes_kernel/mcp_wrapper/attempt_ledger.py:2735-2741 | the early-stopping scan returns the first rows of the task-filtered log above the cursor |
| `Payload.CanonicalPayload` | engines/hermes_kernel/mcp_wrapper/attempt_ledger.py:1306-1356 | the recursive canonicaliser with its loops over containers computes the declarative canonical form, with its depth, node-count and size refusals |
| `PayloadForm.CanonMeans` | engines/hermes_kernel/mcp_wrapper/attempt_ledger.py:1306-1356 | a payload is accepted if and only if it nests at most 12 deep, holds at most 2048 values, 256 items or 128 entries at each container, strings of at most 16384 UTF-16 units, safe integers and safe keys only, and its envelopes are well formed; what is stored has each string's own digest and length in its place and everything else where it was |
| `Payload.FixedPointsAreTheCanonicalValues` | engines/hermes_kernel/mcp_wrapper/attempt_ledger.py:1522-1530 | `_payload` returns a dict equal to its argument, keys compared without their order as Python does, exactly when the argument is canonical, whatever the hash |
| `Payload.RereadIsEqual` | engines/hermes_kernel/mcp_wrapper/attempt_ledger.py:1040-1042 | writing with sorted keys and reading back gives an equal value |
| `Payload.PayloadIsIdempotent` | engines/hermes_kernel/mcp_wrapper/attempt_ledger.py:1291-1304 | canonicalising an accepted payload again, the key-sorted re-reading included, returns it field for field, with the same count |
| `Payload.StoredPayloadIsTextFree` | engines/hermes_kernel/mcp_wrapper/attempt_ledger.py:1306-1356 | no string of the caller survives: every string in the output is a hash envelope's digest |
| `CanonicalProofs.BytesDecideTheValue` | engines/hermes_kernel/mcp_wrapper/skill_trust.py:131-212 | whenever two values both have canonical bytes, the bytes are equal if and only if the values are, booleans and integers kept apart and dictionaries compared by key |
| `CanonicalProofs.InsertionOrderDoesNotShow` | engines/hermes_kernel/mcp_wrapper/skill_trust.py:161-170 | the outcome, refusals included, does not depend on dictionary insertion order at any depth; CanonicalReader.CanonicalBytesRead shows that the order is that of the code points |
| `CanonicalProofs.PrintUnique` | engines/hermes_kernel/mcp_wrapper/skill_trust.py:131-171 | a printed value followed by anything but a digit can be read in only one way |
| `CanonicalProofs.QuotedUnique` | engines/hermes_kernel/mcp_wrapper/skill_trust.py:182-199 | escaped strings are self-delimiting and injective |
| `CanonicalProofs.IntUnique` | engines/hermes_kernel/mcp_wrapper/skill_trust.py:144-148 | decimal integers are injective and end where the digits end |
| `CanonicalProofs.DecimalReads` | engines/hermes_kernel/mcp_wrapper/skill_trust.py:144-148 | the decimal digits of a number read back as that number |
| `CanonicalProofs.AscendingKeysAgree` | engines/hermes_kernel/mcp_wrapper/skill_trust.py:166-170 | two key-sorted entry lists with the same keys have them in the same places |
| `CanonicalProofs.Utf8Unique` | engines/hermes_kernel/mcp_wrapper/skill_trust.py:202-212 | UTF-8 encoding is injective on encodable texts |
| `CanonicalReading.StringsReadBack` | engines/hermes_kernel/mcp_wrapper/skill_trust.py:171-199 | an independent reader of section 7 of RFC 8259 gets back exactly the string that was written and goes on behind its closing quote |
| `CanonicalReading.InvalidSchemaIff` | engines/hermes_kernel/mcp_wrapper/skill_trust.py:131-171 | invalid-schema is raised exactly for values with a float, an unsupported object, an integer beyond 2^53-1 or a non-string key anywhere, or nesting deeper than 64 |
| `CanonicalReading.NotEncodableIff` | engines/hermes_kernel/mcp_wrapper/skill_trust.py:202-217 | a raw UnicodeEncodeError escapes if and only if the value prints and some string or key inside it holds a lone surrogate |
| `CanonicalReading.PrintsIff` | engines/hermes_kernel/mcp_wrapper/skill_trust.py:131-171 | at every starting depth a value prints exactly when it is representable and its nesting fits the limit |
| `CanonicalReader.CanonicalBytesRead` | engines/hermes_kernel/mcp_wrapper/skill_trust.py:131-212 | a reader of UTF-8 (section 3 of RFC 3629) and of JSON (RFC 8259), written from the grammars alone, gets from the canonical bytes of any value that same value, with the keys of every dictionary in ascending code-point order |
| `CanonicalReader.ValueReads` | engines/hermes_kernel/mcp_wrapper/skill_trust.py:131-170 | a printed value of any kind, at any depth, followed by anything but a digit reads back as that value and leaves the rest; numbers carry no leading zero and no negative zero |
| `CanonicalReader.LessMeans` | engines/hermes_kernel/mcp_wrapper/skill_trust.py:164-165 | keys are sorted by code point: one comes first if it is a proper prefix or has the smaller code point where they first differ |
| `CanonicalReader.NormalAscends` | engines/hermes_kernel/mcp_wrapper/skill_trust.py:164-165 | the keys of every dictionary that prints stand in that order, at every depth |
| `CanonicalReader.EscapesAreMinimal` | engines/hermes_kernel/mcp_wrapper/skill_trust.py:171-199 | a character is escaped only where JSON demands it, by its short name if it has one, and in lower-case digits otherwise |
| `CanonicalText.WriteJsonString` | engines/hermes_kernel/mcp_wrapper/skill_trust.py:182-199 | the loop over the characters writes the declarative JSON string |
| `Base64Url.AcceptsExactlyEncodings` | engines/hermes_kernel/mcp_wrapper/skill_trust.py:220-235 | the decoder accepts exactly the unpadded encodings of non-empty byte strings: alphabetic texts with no symbol left over and zero trailing bits; and re-encoding gives the text back |
| `Base64Url.DecodeUndoesEncode` | engines/hermes_kernel/mcp_wrapper/skill_trust.py:220-235 | decoding the encoding of any non-empty byte string returns it |
| `Base64Url.DecodesToItsBits` | engines/hermes_kernel/mcp_wrapper/skill_trust.py:220-235 | a text decodes to a byte string if and only if the string is not empty and the text's symbols are the sextets its bits fill in order, zero bits last |
| `Base64Url.SplitFills` | engines/hermes_kernel/mcp_wrapper/skill_trust.py:232-234 | the sextets of a byte string hold its bits in order and after them only the zero bits of the last one |
| `Base64Url.ResplitsIff` | engines/hermes_kernel/mcp_wrapper/skill_trust.py:232-234 | the round-trip check passes exactly when the last symbol carries no loose bits and no symbol is left over |
| `SkillActivation.SkillRuntime.Run` | engines/hermes_kernel/mcp_wrapper/runtime_quiescence.py:470-573 | the outcome of an install, rollback or disable determines projection, governed record and cache: normal return both at the target, the package's files under an enabled record of their digest or no directory under a disabled one, and the cache cleared; coordination error both at the prior state and the cache cleared; cache-unproven both at the prior state; projection-unproven governance at the prior state; a publish that raises changes something if and only if it was torn by a fault after its swap or in its clean-up |
| `SkillActivation.SkillRuntime.PublishSkill` | engines/hermes_kernel/mcp_wrapper/skill_publisher.py:506-565 | publishing that raises leaves the loadable and the retained tree as they were if and only if no fault hit the retention move, the post-write check, the move back of the prior directory, or the clean-up after an earlier fault |
| `SkillActivation.SkillRuntime.Swap` | engines/hermes_kernel/mcp_wrapper/skill_publisher.py:537-549 | retire-then-replace ends with the new directory live and the prior one set aside, or back in place unless moving it back failed too |
| `SkillActivation.SkillRuntime.RestoreRetained` | engines/hermes_kernel/mcp_wrapper/skill_publisher.py:647-692 | restoring puts back exactly the retained directory, or removes what a first publish wrote, or raises |
| `SkillActivation.SkillRuntime.RetainUnpublish` | engines/hermes_kernel/mcp_wrapper/skill_publisher.py:740-807 | one rename moves the directory out of the loadable tree, or nothing changes |
| `SkillActivation.SkillRuntime.Undo` | engines/hermes_kernel/mcp_wrapper/governed_skills.py:462-532 | restore reverts governance before the projection, so a projection failure leaves governance at the prior record |
| `SkillActivation.SkillRuntime.Unwind` | engines/hermes_kernel/mcp_wrapper/runtime_quiescence.py:506-572 | the second invalidation is attempted whatever the restore did, and decides which exception is raised |
| `SkillActivation.SkillRuntime.Commit` | engines/hermes_kernel/mcp_wrapper/governed_skills.py:534-555 | the governed record flips to the target or stays; rollback and disable demand an active record |
| `SkillActivation.SkillRuntime.Verify` | engines/hermes_kernel/mcp_wrapper/governed_skills.py:952-978 | the post-commit checks of the three operations, the rollback's digest of the published bytes included |
| `SkillActivation.ReachesTarget` | engines/hermes_kernel/mcp_wrapper/governed_skills.py:462-569 | a transaction at its target: for install and rollback the package's own files stamped with their digest and an enabled record of it, for disable no directory and the old record switched off |
| `SkillActivation.PublishedVerifies` | engines/hermes_kernel/mcp_wrapper/governed_skills.py:557-569 | what publish and commit set up passes the post-commit checks |
| `RuntimeFence.ProjectionIsStable` | engines/hermes_kernel/mcp_wrapper/runtime_quiescence.py:314-367 | in every interleaving of transactions, admissions, prompt builds and exits, no step changes the published projection while any run is registered |
| `RuntimeFence.CacheShowsProjection` | engines/hermes_kernel/mcp_wrapper/runtime_quiescence.py:490-573 | whenever the lock is free and no unproven outcome has occurred since the last successful invalidation, the prompt cache is empty or equal to the projection |
| `RuntimeFence.RegisteredRunSeesOneProjection` | engines/hermes_kernel/mcp_wrapper/hermes_runner.py:672-766 | a run sees one and the same projection from registration to exit |
| `RuntimeFence.StepKeepsOk` | engines/hermes_kernel/mcp_wrapper/runtime_quiescence.py:202-229 | a transaction past its quiescence check holds the lock and finds no registered run, step by step |
| `RuntimeFence.LatePublishFailureIsStale` | engines/hermes_kernel/mcp_wrapper/skill_publisher.py:550-567 | a concrete schedule in which a publish that raises after its swap leaves a stale prompt behind |
| `RuntimeFence.OutcomeIsAPath` | engines/hermes_kernel/mcp_wrapper/runtime_quiescence.py:470-573 | every outcome of the transaction is a path of the fence's steps, and the cache is unproven afterwards exactly after a failed second invalidation, after a publish that raised with a changed projection, or as before |
| `RuntimeFence.Activate` | engines/hermes_kernel/mcp_wrapper/runtime_quiescence.py:470-573 | running the transaction takes the fence's state along such a path and keeps its invariant |

## Left out

- SQLite itself: WAL, pragmas, checkpoints, connections, schema creation and the v2-to-v3 column migration.
- Timing, boundary and maintenance diagnostics, `provider_events`, `circuit_failures` and the projection
  deduplication table: they carry no authority.
- Text-level checks: identifier shapes, secret words, provider-reference fields, JSON parsing of stored rows.
  Rows and facts are typed values.
- Identifier collisions: a drawn attempt id is any value; the unique index on attempt ids is not modelled.
- The check that outbox ids and epochs are below 2^53.
- `admit_frontier`, `get_status`, `validate_poll_tuple` and the other read-only facades over the same rows.
- `normalize_observation` of raw provider observations: failures enter already normalised.
- The callers in `failover_runtime.py`: any order of calls is allowed, so their compositions are covered.
- The cost in a completion fact: a terminal poll with an existing cost fact may report a cost the row does not
  hold, so conservation is stated on rows.
- A reader of the outbox that changes its task filter between pages.
- `skill_mutation_transaction`: no caller uses it; the coordinator takes the same lock itself.
- Reentrancy of the mutation lock, and exceptions other than `Exception` subclasses during a transaction.
- `publish_skill` without a retention root, `_already_active_and_published` shortcuts and the queue around the
  three operations. `VerifiedSkillStore` is not part of this model: a raising store call changes nothing.
- `install_remote_staged`: the same transaction with another source of the package.
- Ed25519, `_parse_iso_ms`, the trust bundle engine, network and server plumbing, the vendored agent.
- LedgerClock.NotReadyEnds: says nothing of a wall clock before the attempt's creation, where the cap makes the
  claim false.
- SkillActivation.SkillRuntime.Run: deleting the retained copy after success may raise; that ending is its own
  outcome with the transaction complete.
