# Agent control plane: a verified model

This project models the agent control plane of the harness in Dafny and proves what it is for.
It covers `crates/harness-agent` (structured cancellation, the bounded executor, the prompt-cache
gate, the resumable model handler, messages, file leases, staffing, scheduling, conflict detection,
budget escrows, versioned stores, profile contracts) and `crates/harness-browser` (the session state
machine and its action journal).

`dafny verify dfyconfig.toml` checks everything. Each file holds one component:

| file | component |
|---|---|
| `CancellationTree.dfy` | the forest of registered runs, `cancel_subtree`, lifetimes |
| `BatchExecutor.dfy` | the worker pool and its equivalence with a sequential map and a sort |
| `CacheAffinity.dfy` | the leader and follower protocol of the prompt-cache gate |
| `ToolLedger.dfy`, `ModelTurns.dfy`, `TurnAnswers.dfy`, `TurnChains.dfy` | repeated-call detector and budgets, one call of the model handler, its answer told from the stream, chains of resumed calls |
| `LaneSafety.dfy` | the model handler at the gate |
| `MessageBus.dfy`, `Numbering.dfy` | leased delivery; rows numbered per recipient or session |
| `FileLeases.dfy`, `Conflicts.dfy` | prefix-exclusive leases; conflict search and the coordinator |
| `Capacity.dfy`, `Staffing.dfy`, `Scheduling.dfy` | catalog accounting, greedy assignment, greedy batches |
| `BudgetEscrow.dfy`, `BudgetRuns.dfy` | escrow operations; interleaved reads and conditional writes |
| `StateStore.dfy` | versioned rows, endpoints, sessions |
| `BrowserJournal.dfy`, `BrowserRuntime.dfy`, `BrowserCalls.dfy`, `BrowserRuns.dfy` | write-ahead journal, runtime calls, what they answer and leave, runs with processes that die |
| `BrowserThreads.dfy`, `BrowserRaces.dfy`, `BrowserRows.dfy` | several threads on one browser runtime, step by locked step; the adapter's guard and the action journal; the session's row |
| `ProfileContract.dfy`, `ContractDecoder.dfy` | profile validation, the contract printer, a decoder for it |
| `Prelude.dfy`, `Ordering.dfy`, `Text.dfy` | machine integers and sums, sorting and selection, strings |

How the model reads the source:

- An object that updates its fields is a class whose methods are proved against functions on values;
  the theorems are about those functions, over every history of calls, and tell what each operation
  does on the fields of its state and its inputs. One-line updates such as
  `MarkReady`, `MarkFailed`, `FileLeaseManager.Release` and `AgentCatalog.Start` complete their classes.
- A table is a map or a list of rows in insertion order, and a transaction is one step. Where the
  source reads and writes in several statements without a transaction, the model has several steps and
  other clients act in between.
- Identifiers are natural numbers that stand for their rank in byte order. Error codes are datatype
  constructors. Clock readings are arbitrary in every step.
- Machine integers keep their width and saturate where the source saturates.

Where the code does less than one might expect, the exact condition is proved:

- A new file-lease fence exceeds every fence ever given out exactly when the lease with the highest
  one is still running; otherwise fences come round again and an old handle can remove the same run's
  newer lease (`FenceIsNewIff`, `WrongReleaseIff`, `OldHandleRemovesANewerLease`).
- The repeated-call detector keeps chains free of three equal executed calls exactly when turns ask
  for one call at a time (`DetectorNeedsSingleCalls`).
- A lane of the cache gate is stranded exactly when a leader's call unwinds before the stream started
  or finds it incomplete before it started (`LanesAreLedIff`, `LaneIsStranded`).
- The wait boost lifts a task above a priority exactly when the saturated boost does
  (`OutranksEventuallyIff`), at the top the task id alone decides (`SaturationStarves`), and in a single
  slot a task ever runs exactly when it comes first at the full boost (`RunsEventuallyIff`).
- A limit of the largest integer limits nothing (`LimitHoldsIff`, `LargestLimitIsExceeded`), and an
  escrow that reserves the largest integer stops counting there (`ConsumedIsTheSumOfCharges`,
  `LargestEscrowStopsCounting`).
- A send under a key that was new when it was looked up fails exactly when its id was taken already
  or another send stored its id or key in between (`ConcurrentSendFailsIff`, `SecondSendOfAKeyFails`).
- A checked browser command reaches the adapter against its guard exactly when another thread took the
  session out of the ready state, or made the runtime forget the origin, after the check and nobody
  undid it (`GuardFailsIff`, `CommandAfterClose`, `ClickWithoutOrigin`).
- The session's row shows the runtime's status, with no call under way, exactly when its last write was
  not overtaken by another thread's change (`RowMirrorsIff`, `RowFallsBehind`).
- The browser's snapshot generation falls exactly when an accepted snapshot carries a lower one
  (`GenerationFallsIff`, `GenerationFalls`).
- A budget bounds the true cost of a batch exactly when it is not the largest integer
  (`BudgetBoundsCostIff`, `LargestBudgetIsExceeded`).

## Model

| member | source | states |
|---|---|---|
| CancellationTree.RunCancellationTree.Register | crates/harness-agent/src/execution.rs:1037-1069 | registration fails on a known run, a missing parent or a cancelling parent and then changes nothing; otherwise the run gets a fresh token and the registry stays a forest |
| CancellationTree.RunCancellationTree.Token | crates/harness-agent/src/execution.rs:1071-1073 | hands out the shared token of a registered run, and of no other |
| CancellationTree.RunCancellationTree.CancelSubtree | crates/harness-agent/src/execution.rs:1075-1093 | without a visited set it terminates, returns the run and exactly its transitive descendants in ascending order, once each, trips exactly their tokens and changes no other run |
| CancellationTree.RunCancellationTree.Finish | crates/harness-agent/src/execution.rs:1095-1115 | finishing is refused while children are registered; otherwise the run and its parent's link to it disappear and the registry stays a forest |
| CancellationTree.RunCancellationTree.ActiveRunIds | crates/harness-agent/src/execution.rs:1117-1120 | lists the registered runs in ascending order, once each |
| CancellationTree.RegistrationRefusedIff | crates/harness-agent/src/execution.rs:1043-1059 | each refusal of a registration, with its exact condition |
| CancellationTree.RegisterAddsOne | crates/harness-agent/src/execution.rs:1060-1068 | a registration adds one running leaf under its parent and changes nothing else |
| CancellationTree.FinishRefusedIff | crates/harness-agent/src/execution.rs:1095-1106 | finishing is refused exactly for an unknown run and for one that is still some registered run's parent |
| CancellationTree.FinishRemovesOne | crates/harness-agent/src/execution.rs:1107-1114 | finishing removes exactly the run and its parent's link to it; parents, tokens and activities of the others stay |
| CancellationTree.LastChildFreesParent | crates/harness-agent/src/execution.rs:1095-1114 | after a child has finished its parent can be finished exactly if it has no other child |
| CancellationTree.CancelMarksTheSubtree | crates/harness-agent/src/execution.rs:1075-1093 | after a cancellation exactly the runs that were cancelling or descend from the run have it requested; nothing else changed |
| CancellationTree.EveryRegistryIsAForest | crates/harness-agent/src/execution.rs:1037-1114 | after any history parent and child links mirror each other, name registered runs, have no cycle, and cancelled parents have only cancelled children |
| CancellationTree.ForestHasNoCycles | crates/harness-agent/src/execution.rs:1031-1034 | no line of descent in a registry returns to where it started |
| CancellationTree.CancelledBelow | crates/harness-agent/src/execution.rs:1053-1058 | every descendant of a cancelled run is cancelled, however deep |
| CancellationTree.FrontierEnd | crates/harness-agent/src/execution.rs:1079-1090 | when the stack runs empty the traversal has met each member of the subtree exactly once |
| CancellationTree.ParentOutlivesChild | crates/harness-agent/src/execution.rs:1030-1114 | from the registration of a child until it is finished its parent stays registered, the link stands and every attempt to finish the parent is refused |
| CancellationTree.CancellationStands | crates/harness-agent/src/execution.rs:1086-1087 | over any stretch of history in which the run stays registered a cancellation request is never withdrawn |
| CancellationTree.CancelledTakesNoChildren | crates/harness-agent/src/execution.rs:1048-1093 | after a cancellation, over any history, nothing can be registered under a run of the cancelled subtree that is still registered |
| CancellationTree.FinishedIsGone | crates/harness-agent/src/execution.rs:1095-1114 | over any history a finished run is absent until it is registered again |
| BatchExecutor.BoundedAgentExecutor.New | crates/harness-agent/src/execution.rs:882-893 | an executor without workers is refused |
| BatchExecutor.BoundedAgentExecutor.Admit | crates/harness-agent/src/execution.rs:900-938 | a batch is admitted exactly when every dispatch passes its checks given the runs before it, and the error reported is that of the first one that does not |
| BatchExecutor.AdmittedIff | crates/harness-agent/src/execution.rs:900-938 | a batch is admitted if and only if its runs differ and each dispatch has a sound profile of its role, an objective, a context, a turn limit within the profile and, for a planner, a budget that covers it |
| BatchExecutor.RefusalsInOrder | crates/harness-agent/src/execution.rs:900-938 | a refused dispatch is told its first fault: the profile, a run seen before, the dispatch itself, a planner's budget |
| BatchExecutor.BoundedAgentExecutor.ExecuteBatch | crates/harness-agent/src/execution.rs:895-1012 | for every scheduling of the workers it terminates with one outcome per dispatch, sorted by task and run: cancelled before start, past the deadline, or the handler's result, failure or panic, each exactly when token, clock and handler say so; it trips exactly the tokens of overdue dispatches |
| BatchExecutor.SortedOutcomesReport | crates/harness-agent/src/execution.rs:963-1012 | the sorted sequential outcomes report on every dispatch, on nothing else, and by token, clock and handler alone |
| BatchExecutor.TrippedAreOverdue | crates/harness-agent/src/execution.rs:965-971 | the tokens tripped are exactly those of dispatches that were not cancelled and past their deadline |
| BatchExecutor.AdmittedRunsDiffer | crates/harness-agent/src/execution.rs:904-909 | an admitted batch has pairwise different runs, so the sort order is total |
| BatchExecutor.StepConserves | crates/harness-agent/src/execution.rs:953-999 | no step of any worker loses, repeats or alters an outcome that is reported, in hand or queued |
| BatchExecutor.StepProgresses | crates/harness-agent/src/execution.rs:953-961 | every step of a running worker brings the end of the batch exactly one step nearer |
| BatchExecutor.EveryScheduleAgrees | crates/harness-agent/src/execution.rs:943-1012 | any interleaving of queue pops and outcome pushes that comes to rest holds the sequential outcomes once sorted |
| CacheAffinity.PromptCacheAffinityGate.Enter | crates/harness-agent/src/execution.rs:309-347 | one pass under the lock decides between giving up, waiting, following a warm lane and leading, and only leading changes the lanes |
| CacheAffinity.PassDecides | crates/harness-agent/src/execution.rs:309-347 | a cancelled pass gives up before it looks at the lane; otherwise a warming lane is waited for, a warm one followed, any other led |
| CacheAffinity.PassLeaves | crates/harness-agent/src/execution.rs:326-347 | only leading changes lanes: the own lane is warming, and from 128 lanes on exactly the others that are neither warming nor warm are dropped |
| CacheAffinity.ReportsLeave | crates/harness-agent/src/execution.rs:349-371 | a ready report warms its lane for four minutes, a failure drops it, and no other lane changes |
| CacheAffinity.AlwaysCoordinated | crates/harness-agent/src/execution.rs:309-371 | in every run of any number of threads each key has at most one leader that has not reported, its lane is warming, and a warming lane has such a leader unless its leader left silently |
| CacheAffinity.LedUnlessSomeoneLeft | crates/harness-agent/src/execution.rs:512-617 | every warming lane has a live leader if and only if no leader ever left without a report |
| CacheAffinity.StrandedForever | crates/harness-agent/src/execution.rs:319-325 | after a silent exit every later pass on the key waits or is cancelled, for good |
| CacheAffinity.WaitersAreReleased | crates/harness-agent/src/execution.rs:319-341 | while nobody left silently a waiting thread waits for a live leader, and either report of that leader lets it through |
| CacheAffinity.FollowersFollowALeader | crates/harness-agent/src/execution.rs:326-328 | a follower proceeds only behind a leader that reported ready less than four minutes ago |
| CacheAffinity.WarmLaneIsFollowed | crates/harness-agent/src/execution.rs:326-363 | once a leader has reported ready every pass on its key follows until four minutes are over, whatever other threads do and however many lanes are pruned |
| ModelTurns.Execute | crates/harness-agent/src/execution.rs:391-737 | the imperative call agrees with the turn function in its result, its request to the model and its report to the gate |
| ModelTurns.Consume | crates/harness-agent/src/execution.rs:538-709 | the event loop over the stream agrees with the recursive reading of the events, error and report included |
| ModelTurns.WhoLeavesTheLane | crates/harness-agent/src/execution.rs:529-617 | followers never report; a leader that called the model leaves without a report if and only if starting the stream unwinds, or the stream is incomplete or unwinds before it started and before it failed |
| TurnAnswers.PlainAnswer | crates/harness-agent/src/execution.rs:543-737 | a call that reaches the model is finished if and only if no item breaks the stream, it completes, no tool is asked for, the whole output is not blank and this turn's text has no handoff marker; the checkpoint of a handoff, the empty result and the missing completion have their exact conditions too, and the state left is told from the items |
| TurnAnswers.ToolAnswer | crates/harness-agent/src/execution.rs:626-709 | a call that asks for tools waits for exactly these calls unless the last three on record are alike or the budget is exceeded; which checkpoint it gets otherwise |
| TurnAnswers.WaitingLeaves | crates/harness-agent/src/execution.rs:626-708 | what a waiting call leaves: turn, text, usage, calls on record and counted, and the text in the transcript without a server-side conversation |
| TurnAnswers.RejectedCallsLeave | crates/harness-agent/src/execution.rs:641-691 | what rejected calls leave: a fresh start from the transcript and the reason, calls on record but not counted, no tools once over budget |
| TurnAnswers.AnswerToABreak | crates/harness-agent/src/execution.rs:543-612 | the first item that breaks the stream decides the error, whatever surrounds it |
| TurnAnswers.AnswerWithoutStream | crates/harness-agent/src/execution.rs:483-537 | what ends a call before its stream, in order: no turn left, the cache policy, the gate, a failed or unwinding start |
| TurnAnswers.WhatIsAsked | crates/harness-agent/src/execution.rs:490-528 | the model is asked exactly if a turn is left and policy and gate agree; it gets the pending input with the notice of the turn, and no tools on the last turn |
| TurnAnswers.OpenedFresh | crates/harness-agent/src/execution.rs:421-482 | a new continuation holds contract and stable instructions, then task data, objective and steering messages in this order, and zero counters |
| TurnAnswers.ResumedFurther | crates/harness-agent/src/execution.rs:407-420 | a stored continuation gets the steering messages behind its pending input, and its turn limit may only rise |
| TurnAnswers.RefusedFirst | crates/harness-agent/src/execution.rs:396-406 | a failed view, an unsound profile and a foreign role refuse a call in this order, before anything is asked or reported |
| TurnAnswers.LeaderReports | crates/harness-agent/src/execution.rs:529-617 | a leader that asked the model reports ready exactly if the stream started before it broke, and a failure otherwise unless it leaves silently |
| LaneSafety.LanesAreLedIff | crates/harness-agent/src/execution.rs:511-617 | in every run of handlers at the gate each warming lane has a live leader if and only if no leader's call unwound before the stream started or found it incomplete before it started: every other exit path reports |
| LaneSafety.LaneIsStranded | crates/harness-agent/src/execution.rs:511-617 | one leader whose stream is incomplete at once, or unwinds at once, strands its lane: the run that shows it |
| ToolLedger.WindowDecidesAsHistory | crates/harness-agent/src/execution.rs:627-640 | keeping the last twelve fingerprints decides every verdict as the full history of requested calls would |
| ToolLedger.BudgetsHold | crates/harness-agent/src/execution.rs:641-691 | recorded tool calls equal the calls let through and stay within the budget, and stuck recoveries equal the recoverable verdicts and stay within theirs |
| ToolLedger.SingleCallsStayInStep | crates/harness-agent/src/execution.rs:637-640 | with one call per turn no three consecutive executed calls are equal |
| ToolLedger.TwoCallsCanRepeat | crates/harness-agent/src/execution.rs:627-640 | two turns of two calls pass the detector although three equal calls are executed in a row |
| ToolLedger.DetectorNeedsSingleCalls | crates/harness-agent/src/execution.rs:627-640 | the detector rules out triples in every chain if and only if turns ask for at most one call |
| TurnChains.TurnSpendsOne | crates/harness-agent/src/execution.rs:483-489 | an exhausted continuation is checkpointed as it is without calling the model; a completed model turn uses exactly one turn of a budget it never exceeds |
| TurnChains.EffectIsLawful | crates/harness-agent/src/execution.rs:407-709 | what one call does to turns, calls and recoveries follows from the counters it resumed with, whatever the stream was |
| TurnChains.ChainKeepsItsBudgets | crates/harness-agent/src/execution.rs:407-709 | along any chain of resumed calls completed turns, executed tool calls and recoverable-stuck results stay within the profile's limits |
| TurnChains.NoCallThreeTimesInARow | crates/harness-agent/src/execution.rs:626-665 | along any chain with one tool call per turn no call is handed out three times in a row |
| MessageBus.AgentMessageBus.Send | crates/harness-agent/src/lib.rs:678-711 | without another connection a known key returns its stored message and changes nothing, a known id fails and changes nothing, anything else is appended and read back with its recipient's next sequence |
| MessageBus.SendStoresOnce | crates/harness-agent/src/lib.rs:678-711 | on the columns: a known key gives the message stored there, a known id fails, both without effect; anything else is stored as sent under the next number and returned |
| MessageBus.AgentMessageBus.Insert | crates/harness-agent/src/lib.rs:682-709 | the transaction of a send: a taken id or key is refused without effect, otherwise the message gets the next sequence of its recipient |
| MessageBus.InsertStoresAsSent | crates/harness-agent/src/lib.rs:682-709 | a message whose id and key are new is stored as sent, unacknowledged and free, numbered one above its recipient's count; otherwise nothing changes |
| MessageBus.ConcurrentSendFailsIff | crates/harness-agent/src/lib.rs:678-711 | with other connections acting between lookup, insertion and second lookup, a send under a key that was new at its lookup fails if and only if its id was taken already or a send in between stored its id or key; otherwise it returns what it inserted |
| MessageBus.SecondSendOfAKeyFails | crates/harness-agent/src/lib.rs:679-709 | of two sends of one new key at once the later fails instead of returning the stored message |
| MessageBus.AgentMessageBus.Claim | crates/harness-agent/src/lib.rs:770-829 | a blank token fails; otherwise exactly the picked rows get the lease, and the second query with its filter hands out exactly the pick, in order |
| MessageBus.ClaimHandsOut | crates/harness-agent/src/lib.rs:770-829 | on the columns: what is handed out goes to the recipient and mission asked for, lies beyond the position, was unacknowledged and had no running lease; at most the limit, in the order of sending, under the token until now plus the lease |
| MessageBus.ClaimSkipsNothing | crates/harness-agent/src/lib.rs:785-807 | on the columns: what was asked for and is not handed out comes after a full limit of messages that are |
| MessageBus.ClaimLeases | crates/harness-agent/src/lib.rs:800-812 | exactly the rows handed out carry the token and the end of the lease afterwards |
| MessageBus.BlankClaimFails | crates/harness-agent/src/lib.rs:780-784 | a token of white space is refused without effect |
| MessageBus.AgentMessageBus.Acknowledge | crates/harness-agent/src/lib.rs:831-845 | closes the row under this id, token and running lease, if there is one, and touches no other row |
| MessageBus.AcknowledgeStamps | crates/harness-agent/src/lib.rs:831-845 | a row is acknowledged exactly if it has the id and holds the token under a running lease: it is stamped with the time and loses its lease, everything else stays |
| MessageBus.UnknownIsNotAcknowledged | crates/harness-agent/src/lib.rs:831-845 | an unknown id is not acknowledged and changes nothing |
| MessageBus.AlwaysInOrder | crates/harness-agent/src/lib.rs:667-845 | after any history ids and keys are unique, lease columns are set together, acknowledged rows carry no lease and every recipient's rows are numbered |
| MessageBus.ClaimTakesTheFirst | crates/harness-agent/src/lib.rs:794-807 | a claim picks the first claimable messages in sequence order: what it leaves behind comes later, and only because the limit was reached |
| MessageBus.HandsOutThePick | crates/harness-agent/src/lib.rs:808-827 | reading back by token and filtering by picked ids yields the pick itself, even when the token was used before |
| MessageBus.SequencesRunFromOne | crates/harness-agent/src/lib.rs:686-692 | per recipient the sequences are 1, 2, 3 and so on in the order of sending, over any history |
| MessageBus.StoredForGood | crates/harness-agent/src/lib.rs:831-845 | stored messages keep their place and envelope, and an acknowledged row never changes again |
| MessageBus.ResendReturnsTheFirst | crates/harness-agent/src/lib.rs:679-681 | resending a key at any later time stores nothing and returns the first message |
| MessageBus.OneStateAtATime | crates/harness-agent/src/lib.rs:794-841 | at any clock reading a message is acknowledged, held or free, and not two of these; only free ones are handed out and only held ones can be acknowledged |
| MessageBus.AcknowledgeNeedsTheLatestClaim | crates/harness-agent/src/lib.rs:830-845 | an acknowledgement succeeds if and only if the message is unacknowledged and its latest claim carried this token and a lease that still runs |
| MessageBus.AcknowledgedAtMostOnce | crates/harness-agent/src/lib.rs:831-845 | over any history a message is acknowledged at most once, and once exactly when its row says so |
| MessageBus.LowestIsHandedOut | crates/harness-agent/src/lib.rs:794-807 | the lowest message a query may claim is always handed out by it, so an expired lease loses nothing |
| Numbering.LaneRunsFromOne | crates/harness-agent/src/lib.rs:686-692 | rows inserted with the lane's maximum plus one are numbered without gaps in insertion order |
| Numbering.AppendNumbered | crates/harness-browser/src/journal.rs:156-162 | maximum plus one is the number of rows in the lane plus one |
| FileLeases.FileLeaseManager.Acquire | crates/harness-agent/src/lib.rs:920-964 | the sweep, the conflict check, the new fence and the insertion are one transaction that a refusal undoes as a whole |
| FileLeases.GrantedUntil | crates/harness-agent/src/lib.rs:950-963 | a granted lease is the run's, on the path, and ends at now plus the time asked, at least one millisecond, saturating |
| FileLeases.RejectedPath | crates/harness-agent/src/lib.rs:920-929 | a path that cannot be resolved is refused without effect |
| FileLeases.LeasesAreExclusive | crates/harness-agent/src/lib.rs:936-962 | for any clock readings no reachable table lets two runs hold overlapping paths, and fences in the table are distinct |
| FileLeases.OverlapIff | crates/harness-agent/src/lib.rs:932-949 | two paths overlap exactly if some path lies under both |
| FileLeases.OneWriterPerFile | crates/harness-agent/src/lib.rs:936-962 | in every reachable table all leases over a file belong to one run |
| FileLeases.GrantedOrUnchanged | crates/harness-agent/src/lib.rs:932-963 | a request is refused if and only if another run holds an overlapping live lease, and then nothing changes; a grant carries a fence above every live one |
| FileLeases.ReleaseRemovesOnlyItsOwn | crates/harness-agent/src/lib.rs:965-977 | a handle, however old, never removes another run's lease or one on another path |
| FileLeases.LeaseStands | crates/harness-agent/src/lib.rs:930-977 | a lease that runs and is neither released nor renewed survives any further history |
| FileLeases.NoTakeover | crates/harness-agent/src/lib.rs:936-947 | until the time asked for has passed, and while its run neither releases nor renews the lease, every overlapping request of another run conflicts |
| FileLeases.FenceIsNewIff | crates/harness-agent/src/lib.rs:948-954 | a new fence exceeds every fence ever given out if and only if the lease with the highest one is still running |
| FileLeases.WrongReleaseIff | crates/harness-agent/src/lib.rs:965-977 | a handle removes a lease other than its own if and only if its run was later given another lease on the same path under the same fence, which the table holds |
| FileLeases.FreshFencesMakeHandlesExact | crates/harness-agent/src/lib.rs:948-977 | where no fence was given out twice a handle removes the very lease it was issued for, or nothing |
| FileLeases.OldHandleRemovesANewerLease | crates/harness-agent/src/lib.rs:948-977 | after a release empties the table the old handle removes the run's next lease on the path |
| Conflicts.DetectConflicts | crates/harness-agent/src/lib.rs:1074-1110 | the nested loops list the conflicts of each earlier result with each later one, in search order |
| Conflicts.ConflictsAreExact | crates/harness-agent/src/lib.rs:1074-1110 | a conflict is reported if and only if some earlier and some later result have overlapping changed paths or differently trimmed claims on a shared key |
| Conflicts.LeasedChangesNeverOverlap | crates/harness-agent/src/lib.rs:1080-1092 | when changed paths lie under leases of pairwise different runs no file conflict is reported, after any lease history |
| Conflicts.Inspect | crates/harness-agent/src/lib.rs:1044-1071 | a meeting is called if and only if two results clash; it invites every agent with a result and the coordinator and lists the conflicts |
| Capacity.AgentCatalog.Register | crates/harness-agent/src/lib.rs:126-155 | an unsound profile, an empty definition, a coding coordinator and a duplicate are refused in this order without effect; otherwise the agent starts with no slot in use |
| Capacity.AgentCatalog.Reserve | crates/harness-agent/src/lib.rs:187-193 | takes a slot exactly when one is free |
| Capacity.AgentCatalog.Release | crates/harness-agent/src/lib.rs:206-221 | gives back a running slot first, then a reserved one, or reports that none is in use |
| Capacity.RegisterAdds | crates/harness-agent/src/lib.rs:126-155 | each refusal of a definition with its exact condition; otherwise the agent is added with both counters at zero |
| Capacity.ReserveTakesASlot | crates/harness-agent/src/lib.rs:187-193 | a reservation is granted exactly while a slot is free and raises that agent's reserved counter by one |
| Capacity.StartMovesASlot | crates/harness-agent/src/lib.rs:194-205 | a start is granted exactly on a reservation and moves one slot from reserved to running |
| Capacity.ReleaseFreesASlot | crates/harness-agent/src/lib.rs:206-221 | a release takes from running first, then from reserved, and is refused when both are zero |
| Capacity.CapacityHolds | crates/harness-agent/src/lib.rs:126-222 | after any history reserved plus running never exceeds an agent's capacity, and no coordinating agent may code |
| Capacity.SlotsAreConserved | crates/harness-agent/src/lib.rs:175-222 | the slots in use are the reservations granted minus the releases granted |
| Capacity.RunsAreConserved | crates/harness-agent/src/lib.rs:194-221 | the runs in progress are the starts granted minus the releases that found one |
| Staffing.StaffingRouter.Assign | crates/harness-agent/src/lib.rs:447-492 | every task in order gets the best-scoring eligible agent, ties to the smallest id, or the first task without one is reported |
| Staffing.NobodyIsBetter | crates/harness-agent/src/lib.rs:452-476 | the assigned agent beats every other that may take the task: a hundred for each preferred role, minus cost weight, minus twenty-five for each assignment before, ties to the smaller id |
| Staffing.AssignedMayWork | crates/harness-agent/src/lib.rs:452-465 | an assigned agent is not forbidden, has every capability and a slot left |
| Staffing.StuckMeansNobodyMay | crates/harness-agent/src/lib.rs:473-476 | a task is refused only if every agent is forbidden, incapable or full |
| Staffing.ScoreIsMadeOf | crates/harness-agent/src/lib.rs:466-472 | how each preferred role, each unit of cost and each earlier assignment moves the score, from zero |
| Staffing.ChosenIsUnique | crates/harness-agent/src/lib.rs:473-476 | tasks and catalog determine the assignment |
| Staffing.SuccessExcludesFailure | crates/harness-agent/src/lib.rs:474-476 | where all tasks can be assigned no prefix of best choices leaves a task without an eligible agent |
| Staffing.AssignmentsCanBeReserved | crates/harness-agent/src/lib.rs:187-193 | reserving the assignments in order on the same catalog succeeds for every one |
| Scheduling.AgentScheduler.ScheduleWithConstraints | crates/harness-agent/src/lib.rs:545-618 | the loop packs the sorted candidates: cancelled, full, too expensive, or run, in this order of checks |
| Scheduling.CandidatesAreReady | crates/harness-agent/src/lib.rs:555-577 | candidates are exactly the ready tasks with an agent, the last assignment counting, with their boosted priority and cost |
| Scheduling.RunsAreAsStated | crates/harness-agent/src/lib.rs:555-577 | a run is a ready task under the agent of its last assignment, at its stated cost or one, with ten points for each cycle waited, saturating |
| Scheduling.AgentIsTheLastAssigned | crates/harness-agent/src/lib.rs:552-558 | a task's agent is the one its last assignment names |
| Scheduling.QueueIsOrdered | crates/harness-agent/src/lib.rs:578-583 | candidates are taken by priority, highest first, and then by task |
| Scheduling.BatchPartitionsTheQueue | crates/harness-agent/src/lib.rs:586-617 | every candidate is run or deferred, once |
| Scheduling.EveryReadyTaskOnce | crates/harness-agent/src/lib.rs:555-617 | where no ready task is listed twice each one that has an agent is run or deferred, exactly once, and no other task appears |
| Scheduling.BatchRespectsTheLimits | crates/harness-agent/src/lib.rs:586-617 | the batch keeps the concurrency limit and the budget and runs nothing cancelled; its total is the true sum up to saturation |
| Scheduling.BudgetBoundsCostIff | crates/harness-agent/src/lib.rs:527-617 | a budget bounds the true cost of every batch if and only if it is not the largest integer, which `schedule` passes |
| Scheduling.LargestBudgetIsExceeded | crates/harness-agent/src/lib.rs:527-617 | under the largest budget a batch of two costs more than it reports and than the budget: the queue that shows it |
| Scheduling.DeferralsAreJustified | crates/harness-agent/src/lib.rs:587-609 | a deferral names its true reason, seen from the finished batch: cancelled, full of tasks that come first, or too expensive for the final remainder |
| Scheduling.SpareSlotsMeanNothingFits | crates/harness-agent/src/lib.rs:587-609 | with slots left every deferred task was cancelled or does not fit what is left |
| Scheduling.OutranksEventuallyIff | crates/harness-agent/src/lib.rs:562-571 | some number of waits lifts a task above a priority if and only if the full boost does, which a very negative base may prevent |
| Scheduling.LongWaitersRun | crates/harness-agent/src/lib.rs:543-618 | a task that fits the budget and is not cancelled is in the batch once it waited a tenth of what the highest competing priority has over its base, plus one, wherever waiting can lift it above that priority at all |
| Scheduling.RunsEventuallyIff | crates/harness-agent/src/lib.rs:543-618 | with one slot and candidates that could each run alone, some number of waits brings a task into the batch if and only if at the full boost it comes before every other candidate, by priority or by its id at equal priority |
| Scheduling.SaturationStarves | crates/harness-agent/src/lib.rs:562-583 | against a smaller id at the highest priority and with one slot a task is left out however long it waited |
| BudgetEscrow.AgentBudgetManager.Reserve | crates/harness-agent/src/budget.rs:99-190 | sweep, lookup, limits and insertion are one transaction: a stored run is returned, a refusal undoes the sweep, also when the stored totals exceed the signed range, and a success opens version one |
| BudgetEscrow.ReserveSucceedsIff | crates/harness-agent/src/budget.rs:99-190 | a new run gets its escrow if and only if the request is within the policy and, with it, neither the number nor the tokens, tool calls and time of the mission's escrows that still run exceed their limits |
| BudgetEscrow.BeyondPolicyIsInvalid | crates/harness-agent/src/budget.rs:99-108 | a request beyond its policy, and no other, is invalid whatever is stored, and changes nothing |
| BudgetEscrow.RefusalFromTotals | crates/harness-agent/src/budget.rs:129-160 | which limit a refusal names, told from the escrows that still run |
| BudgetEscrow.NewEscrowAsAsked | crates/harness-agent/src/budget.rs:161-190 | a new escrow reserves what was asked for, has consumed nothing, lasts for the run time and is stored under version one |
| BudgetEscrow.ReserveExpiresTheOverdue | crates/harness-agent/src/budget.rs:110-118 | a reservation expires exactly the active escrows past their time and leaves the others alone |
| BudgetEscrow.AgentBudgetManager.Totals | crates/harness-agent/src/budget.rs:130-136 | counts the active escrows of a mission and sums what they reserve of a resource |
| BudgetEscrow.AgentBudgetManager.Charge | crates/harness-agent/src/budget.rs:192-249 | a single client's charge is its read followed by its conditional write; past its time the escrow is released first |
| BudgetEscrow.ChargeSucceedsIff | crates/harness-agent/src/budget.rs:192-249 | a charge succeeds if and only if the escrow is active, not past its time, and both sums stay within the reservation |
| BudgetEscrow.ChargeAddsUp | crates/harness-agent/src/budget.rs:210-249 | a successful charge adds to consumption and version and changes nothing else |
| BudgetEscrow.ChargeFailsBecause | crates/harness-agent/src/budget.rs:199-223 | each failure of a charge with its condition; only an escrow past its time is changed, by expiring it |
| BudgetEscrow.AgentBudgetManager.Release | crates/harness-agent/src/budget.rs:251-291 | moves an active escrow to the given terminal status and leaves a settled one alone |
| BudgetEscrow.ReleaseSettles | crates/harness-agent/src/budget.rs:251-291 | each answer of a release with its exact condition, and the row it leaves |
| BudgetEscrow.AloneNeverConflicts | crates/harness-agent/src/budget.rs:224-247 | without interleaving the version check never fails and the columns keep agreeing with the stored escrow |
| BudgetRuns.AlwaysConsistent | crates/harness-agent/src/budget.rs:192-291 | in every interleaving of reads, writes and sweeps status, expiry and version columns agree with the stored escrow, consumption is within the reservation, and an unchanged version means an unchanged escrow for every reader |
| BudgetRuns.EachVersionHasOneSuccessor | crates/harness-agent/src/budget.rs:228-247 | at most one write takes effect over each version of an escrow |
| BudgetRuns.SecondWriterNeverWins | crates/harness-agent/src/budget.rs:224-239 | of two writers that read one version at most one succeeds, at the end of the version range too; the other changes nothing and meets the conflict |
| BudgetRuns.ConsumedIsTheSumOfCharges | crates/harness-agent/src/budget.rs:210-227 | in every interleaving consumed tokens and tool calls equal the sums of the charges that returned successfully, exactly so below the largest reservation, and never exceed the reservation |
| BudgetRuns.LargestEscrowStopsCounting | crates/harness-agent/src/budget.rs:210-227 | at a reservation of the largest integer a charge beyond it still succeeds and is not counted: the run that shows it |
| BudgetRuns.TerminalIsForever | crates/harness-agent/src/budget.rs:265-290 | in every interleaving an escrow that left the active state never changes again |
| BudgetRuns.ReserveIsIdempotent | crates/harness-agent/src/budget.rs:119-127 | reserving a run again returns its stored escrow whatever is asked, unless the sweep made it unreadable; a failed reservation changes nothing |
| BudgetRuns.MissionsStayWithinPolicy | crates/harness-agent/src/budget.rs:129-160 | under one policy below saturation the active escrows of every mission stay within its count, tokens, tool calls and run time at all times |
| BudgetRuns.LimitHoldsIff | crates/harness-agent/src/budget.rs:144-160 | a limit admits a request exactly when the sum fits it or the limit is the largest integer |
| BudgetRuns.LargestLimitIsExceeded | crates/harness-agent/src/budget.rs:144-160 | under a limit of the largest integer two reservations in a row hold more than the limit: the run that shows it |
| VersionedRows.ReplacesWhatWasRead | crates/harness-agent/src/state_store.rs:96-122 | a replacement over the version a client read is accepted if and only if the row is still what the client read, whatever others did in between |
| VersionedRows.EachVersionHasOneSuccessor | crates/harness-agent/src/state_store.rs:154-186 | each version of a row is replaced at most once, and once exactly when the row has moved past it |
| VersionedRows.AcceptedIsStored | crates/harness-agent/src/state_store.rs:68-122 | an attempt is accepted exactly for a new row at version one or over the current version; it stores its state under the next version and changes no other row |
| VersionedRows.RowIsTheLastStored | crates/harness-agent/src/state_store.rs:68-186 | over any history a row holds what the last accepted attempt on it stored |
| VersionedRows.SecondReplacementNever | crates/harness-agent/src/state_store.rs:101-107 | a second replacement over one version is never accepted: at the end of the version range the statement itself is refused |
| StateStore.AgentStateStore.CreateEndpoint | crates/harness-agent/src/state_store.rs:68-86 | a first version other than one and a known id are refused without effect |
| StateStore.AgentStateStore.UpdateEndpoint | crates/harness-agent/src/state_store.rs:96-122 | replaces exactly over the expected version, and never over one beyond the signed range; the caller's copy leaves with the new version, or with the expected one after a conflict |
| StateStore.AgentStateStore.CreateSession | crates/harness-agent/src/state_store.rs:124-144 | a first version other than one and a known id are refused without effect; status and time columns repeat the stored session |
| StateStore.AgentStateStore.UpdateSession | crates/harness-agent/src/state_store.rs:154-186 | replaces exactly over the expected version, and never over one beyond the signed range, and keeps every column in agreement with the stored session |
| StateStore.UpdateAnswers | crates/harness-agent/src/state_store.rs:96-122 | each answer of an update with its exact condition, and the version the caller's copy leaves with |
| StateStore.RecoverableIff | crates/harness-agent/src/state_store.rs:188-205 | every session is recoverable but a submitted, completed, cancelled or failed one |
| StateStore.AgentStateStore.RecoverableSessions | crates/harness-agent/src/state_store.rs:188-205 | lists exactly the recoverable sessions, once each, the longest untouched first and ties by id |
| BrowserJournal.SqliteBrowserJournal.Begin | crates/harness-browser/src/journal.rs:151-177 | a known action fails without effect; otherwise the action is recorded as running under its session's next sequence |
| BrowserJournal.SqliteBrowserJournal.Update | crates/harness-browser/src/journal.rs:87-130 | closes a running action in record and columns, and refuses a missing or closed one without effect |
| BrowserJournal.SqliteBrowserJournal.List | crates/harness-browser/src/journal.rs:209-227 | returns exactly the session's actions in the order 1, 2, 3 of their sequences |
| BrowserJournal.SqliteBrowserJournal.RecoverInterrupted | crates/harness-browser/src/journal.rs:229-267 | marks exactly the running actions uncertain, returns how many there were and sends exactly the sessions in flight to reconciliation |
| BrowserJournal.BeginStores | crates/harness-browser/src/journal.rs:151-177 | an action whose id is new is stored as given, running, numbered one above its session's count; otherwise nothing changes |
| BrowserJournal.UpdateCloses | crates/harness-browser/src/journal.rs:87-130 | exactly the running action of the id is closed, in record and columns; an ended one is refused without effect |
| BrowserJournal.UnknownIsNotEnded | crates/harness-browser/src/journal.rs:99-106 | ending an unknown action fails without effect |
| BrowserJournal.RecoverMarks | crates/harness-browser/src/journal.rs:229-267 | row by row what a recovery changes: running actions and sessions in flight, with the time of the recovery |
| BrowserJournal.CountsTheRunning | crates/harness-browser/src/journal.rs:229-267 | the number a recovery returns is that of the actions it found running |
| BrowserJournal.SessionActionsAreNumbered | crates/harness-browser/src/journal.rs:156-162 | per session the sequences are 1, 2, 3 and so on over any history of journal writes |
| BrowserJournal.EndedIsForever | crates/harness-browser/src/journal.rs:107-127 | an action that is no longer running is never changed again |
| BrowserJournal.RecoveryLeavesNothingOpen | crates/harness-browser/src/journal.rs:229-267 | after recovery no action is running and no session is in flight, whatever was cut off before; everything at rest is untouched |
| BrowserRuntime.BrowserRuntime.Open | crates/harness-browser/src/lib.rs:338-389 | a ready session is left alone, a session in use or in transition is refused, any other is launched and journaled as ready or failed |
| BrowserRuntime.BrowserRuntime.Execute | crates/harness-browser/src/lib.rs:391-454 | the action is journaled, checked, passed on and closed in this order, with the same branch for every refusal, failure and mismatch |
| BrowserRuntime.BrowserRuntime.Close | crates/harness-browser/src/lib.rs:456-478 | a closed session is left alone; otherwise the origin is forgotten and the session ends closed or in need of reconciliation |
| BrowserRuntime.BrowserRuntime.Handoff | crates/harness-browser/src/lib.rs:481-542 | only a live ready session is handed to the user; the action is closed on every path |
| BrowserRuntime.BrowserRuntime.Reclaim | crates/harness-browser/src/lib.rs:545-606 | only a session under user control is reclaimed, by closing and relaunching; the action is closed on every path |
| BrowserRuntime.BrowserRuntime.ApplyResultState | crates/harness-browser/src/lib.rs:729-749 | navigation sets the origin and counts a generation, a snapshot overwrites the generation, clicks and typing count one |
| BrowserCalls.ExecuteSucceedsIff | crates/harness-browser/src/lib.rs:391-454 | a command is carried out if and only if its action is new, the session is ready and alive and may run it by origin, secrecy and transfer rules, and the adapter's answer is of the right kind, size and place |
| BrowserCalls.ExecuteFailsBecause | crates/harness-browser/src/lib.rs:391-454 | an execution fails with the known action, the refusal, the adapter's error or the mismatch, in this order |
| BrowserCalls.AdapterIsAsked | crates/harness-browser/src/lib.rs:414-419 | the adapter is given a command exactly if the checks pass, in the state it then was |
| BrowserCalls.RefusalNamesTheReason | crates/harness-browser/src/lib.rs:633-694 | each refusal of a command with its condition |
| BrowserCalls.ExecuteMovesState | crates/harness-browser/src/lib.rs:419-453 | what an execution does to status, origin and generation, whatever the command and the answer |
| BrowserCalls.CommandIsJournaled | crates/harness-browser/src/lib.rs:391-453 | the journal's last row describes the command: kind, origin, target, hash, times, and summary or error as returned |
| BrowserCalls.KindOfCommand | crates/harness-browser/src/lib.rs:401 | each command has its own kind of action |
| BrowserCalls.SummaryIsTheKind | crates/harness-browser/src/lib.rs:426-429 | a command's summary is the name of its kind in lower case |
| BrowserCalls.OpenLaunches | crates/harness-browser/src/lib.rs:338-389 | what an opening answers and leaves, by the status it found |
| BrowserCalls.CloseForgets | crates/harness-browser/src/lib.rs:456-478 | what a close answers and leaves |
| BrowserCalls.HandoffGivesControl | crates/harness-browser/src/lib.rs:481-542 | a handoff takes place exactly if its action is new, the session ready and alive and the adapter willing; what it leaves |
| BrowserCalls.HandoffIsJournaled | crates/harness-browser/src/lib.rs:486-541 | the journal's last row describes the handoff and its outcome |
| BrowserCalls.ReclaimTakesControl | crates/harness-browser/src/lib.rs:545-606 | a reclaim takes place exactly if the user has control, its action is new and the adapter closes and launches; what it leaves |
| BrowserCalls.ReclaimIsJournaled | crates/harness-browser/src/lib.rs:553-605 | the journal's last row describes the reclaim and its outcome |
| BrowserRuns.ExecuteEndsItsAction | crates/harness-browser/src/lib.rs:391-454 | when an execution returns its action is closed, completed or failed with the very error returned, and no other action changed |
| BrowserRuns.HandoffEndsItsAction | crates/harness-browser/src/lib.rs:481-542 | when a handoff returns its action is closed with the outcome returned |
| BrowserRuns.ReclaimEndsItsAction | crates/harness-browser/src/lib.rs:545-606 | when a reclaim returns its action, if one was begun, is closed with the outcome returned |
| BrowserRuns.AdapterIsGuarded | crates/harness-browser/src/lib.rs:633-759 | over any run of calls that follow one another, with any adapter failures and processes dying anywhere, the adapter executes commands only for a ready session on an allowed origin, never types a user secret, transfers files only as configured, and the believed origin is absent or allowed |
| BrowserRaces.PolicyHoldsInEveryInterleaving | crates/harness-browser/src/lib.rs:338-606 | with any number of threads, each locking the state once per step, the adapter only ever executes commands the configuration allows and the believed origin is absent or allowed |
| BrowserRaces.GuardFailsIff | crates/harness-browser/src/lib.rs:633-759 | a command that passed its checks reaches the adapter against the guard of a call (ready session, allowed origin, policy) if and only if, since its status check, another thread's step took the session out of the ready state and none put it back, or, since its command check, another thread's step made the runtime forget the origin the command needs and no navigation was accepted after it |
| BrowserRaces.TurnReadiness | crates/harness-browser/src/lib.rs:338-606 | after a step the session is ready exactly if the step is a successful launch or reclaim, or it was ready and the step is no failed answer, start or end of a close, end of a handoff, failed launch or failed reclaim |
| BrowserRaces.AloneIsGuarded | crates/harness-browser/src/lib.rs:414-419 | a thread that no other overtakes passes its command on under the guard |
| BrowserRaces.CommandAfterClose | crates/harness-browser/src/lib.rs:414-478 | a checked navigation reaches the adapter of a session that another thread has closed: the interleaving that shows it |
| BrowserRaces.ClickWithoutOrigin | crates/harness-browser/src/lib.rs:414-478 | a checked click reaches a session that another thread has closed and opened again, ready but without an origin: the interleaving that shows it |
| BrowserRaces.EveryCommandWasChecked | crates/harness-browser/src/lib.rs:414-419 | behind every command the adapter is given stand a status check and then a command check of its own thread |
| BrowserRaces.RunningMeansUnderWay | crates/harness-browser/src/lib.rs:391-606 | in every interleaving the journal holds a running action exactly while one thread, and no other, is between beginning and ending it |
| BrowserRaces.FinishEndsTheAction | crates/harness-browser/src/lib.rs:414-453 | the last step of a call always ends its action, with the outcome of the call |
| BrowserRows.RowMirrorsIff | crates/harness-browser/src/lib.rs:338-606 | with no call under way the session's row shows the runtime's status if and only if no other thread set a different status for good between the last row write and the status change it belongs to |
| BrowserRows.RowFallsBehind | crates/harness-browser/src/lib.rs:440-447 | a failed execution that is overtaken by an opening leaves a ready session whose row asks for reconciliation: the interleaving that shows it |
| BrowserThreads.ExecutionInOneGo | crates/harness-browser/src/lib.rs:391-454 | the steps of an execution, one after the other, do to state, journal and adapter what the whole call does |
| BrowserThreads.OpenInOneGo | crates/harness-browser/src/lib.rs:338-389 | the steps of an opening in a row do to state and journal what the whole call does |
| BrowserThreads.CloseInOneGo | crates/harness-browser/src/lib.rs:456-478 | the steps of a close in a row do to state and journal what the whole call does |
| BrowserThreads.HandoffInOneGo | crates/harness-browser/src/lib.rs:481-542 | the steps of a handoff in a row do to state and journal what the whole call does |
| BrowserThreads.ReclaimInOneGo | crates/harness-browser/src/lib.rs:545-606 | the steps of a reclaim in a row do to state and journal what the whole call does |
| BrowserRuns.NothingIsLeftRunning | crates/harness-browser/src/lib.rs:391-606 | between a recovery and the next process that dies every journaled action has ended |
| BrowserRuns.RunReaches | crates/harness-browser/src/lib.rs:338-606 | whatever a run does to the journal is a history of proper journal writes |
| BrowserRuns.ActionsEndForGood | crates/harness-browser/src/journal.rs:107-127 | over any run, with processes dying anywhere, an ended action never changes again |
| BrowserRuns.ActionsAreNumbered | crates/harness-browser/src/journal.rs:156-162 | over any run the actions of a session are numbered 1, 2, 3 and so on |
| BrowserRuns.SessionRowMirrors | crates/harness-browser/src/lib.rs:338-606 | where recovery happens at process start the journal's session row shows the status of every session that is not closed |
| BrowserRuns.GenerationFallsIff | crates/harness-browser/src/lib.rs:729-749 | a call lowers the snapshot generation if and only if it accepts a snapshot with a lower one |
| BrowserRuns.GenerationFalls | crates/harness-browser/src/lib.rs:740-742 | opening, navigating and accepting a snapshot of generation zero takes the generation from one to zero: the run that shows it |
| Text.BlankIsTrimEmpty | crates/harness-agent/src/lib.rs:780 | a text of nothing but white space is exactly one that is empty after trimming from both ends |
| Text.TrimTakesBothEnds | crates/harness-agent/src/lib.rs:780 | a text is its trimmed form between two runs of white space, and the trimmed form has none at its ends |
| ProfileContract.Validate | crates/harness-agent/src/profile.rs:72-133 | the loops reach the verdict: header first, then steps with pairwise different ids, then failure rules |
| ProfileContract.VerdictIff | crates/harness-agent/src/profile.rs:72-133 | a profile is accepted if and only if its header is complete, its limits sensible, its steps filled in and told apart, and its failure rules filled in; which fault is reported first |
| ProfileContract.EscapeIsOnePass | crates/harness-agent/src/profile.rs:207-213 | the four replacements in a row equal one pass that substitutes each character |
| ProfileContract.UnescapeInverts | crates/harness-agent/src/profile.rs:207-213 | every escaped text can be read back |
| ContractRoundTrip.ContractDecodes | crates/harness-agent/src/profile.rs:136-204 | every field of every profile can be decoded from its contract, an absent write scope reading as the scope "none" |
| ContractRoundTrip.ContractsAgreeExactly | crates/harness-agent/src/profile.rs:136-204 | two profiles print alike if and only if they differ at most in an absent write scope against the scope "none" |

## Left out

- Terminal program, provider and credential wiring, TypeScript and Python parts: plumbing over crates that are not part of this model.
- Built-in agent definitions and role profiles: finite tables of literals.
- SQLite, JSON encoding, hashing, file-system and lock-poisoning errors: tables are values, transactions are atomic, encodings are taken as injective.
- Integers at the database boundary: versions and totals keep the signed 64-bit range; sequence and fence numbers are unbounded.
- Path resolution: leases and results carry resolved component lists; equal strings and equal components are taken to coincide.
- URL parsing: a navigation carries the origin parsed from its URL, or none, and a redacted target.
- `find_ready_node_ids`: the ready tasks are an input list.
- The model runtime: a stream is any finite list of events, starting it may fail, and both may unwind.
- `PlaywrightProcessAdapter` and the browser tools: the adapter's answers and its liveness are arbitrary inputs of each call.
- Threads on one browser runtime: processes do not die inside their calls there, adapter calls other than executions are not listed, and each adapter call is one step at the moment it is made.
- Runtime views and the read-only `pending` query: projections of modelled state.
- Message meetings, `MeetingRecord` editing, stored results and task priorities: plain upserts and appends.
- Evidence validation: a list of independent checks.
- Fixed fields of an agent result (confidence, warnings, follow-up text, summaries) and the wording of notices to the model: notices are named, not spelt out.
- Catalog fingerprints and reason texts of assignments; lifecycle names of agents; allowed tools and integrity floors, which nothing modelled reads.
- CacheAffinity.PromptCacheAffinityGate.Enter: models one pass of the waiting loop under the lock; the condition variable and its timeout only repeat the pass.
- BatchExecutor.BoundedAgentExecutor.ExecuteBatch: takes the handler as a function of its dispatch and tokens as unshared, so a run cannot cancel another run of the same batch.
- The reasoning level printed as `Max` is named Maximal.
