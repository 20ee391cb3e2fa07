# The control plane's transactional core, modelled and proved in Dafny

The control plane keeps one SQLite database and lets several protocols drive it: wakes that
start paid provider processes, workers under them, polls of five event sources, deliveries with
leases, two write-ahead journals, token budgets, and a governance queue on a remote issue set.
This project models that state machine and proves what its documentation claims of it, and, where
the code does something else, exactly when the claim holds.

How it is built, file by file:

- `Tables`, `Outcomes`, `Sums`: the tables as maps, transactions that commit or roll back, sums.
- `Sessions`, `Budgets`, `Deliveries`, `Wakes`, `Feeds`, `Journals`: what each store transaction
  does, as a function of the database; `Stores`: the class `Store`, whose methods carry the
  transactions out step by step and are proved to do exactly that; `Effects`, `Leases`: when each
  transaction commits and what it changes, stated on the rows alone, without those functions' helpers.
- `Ledgers`, `Boards`, `Policies`, `Capacities`, `Readiness`: the invariants, one transaction at
  a time; `Runs`, `RunLedger`, `RunBoard`, `RunCapacity`: the same over every sequence of
  transactions.
- `WakeThreads`, `Recovery`, `Restarts`, `Windows`: the wake lifecycle as any number of concurrent
  threads that may fail or stop between any two transactions, restart recovery, any number of
  crashes and recoveries one after the other, and the windows in which recovery raises; `Endings`:
  what recovery leaves of every row.
- `Identity`, `Polling`, `Routing`, `Ticks`: from a source's pages to a leased delivery; `RunPolls`,
  `RunKeys`: polls and delivery keys over whole runs.
- `Brokers`, `Verification`: dispatch at most once, and resolution of ambiguous outcomes.
- `Reconciling`, `Governance`: planning and one pass of `sync`; `Postings`: what a pass posts and
  journals; `Retries`: what becomes of an action that failed.
- `Usage`, `WorkerImport`, `Framing`: metered tokens, imported files, framed bytes.

Reading conventions. Times are integers. A SHA-256 digest or a name-based UUID (version 5, section
4.3 of RFC 4122) stands for what it was computed from, so equal digests mean equal inputs; where
the code joins texts on ":" before hashing, the join is modelled and its injectivity proved. Random UUIDs
are numbers, and texts that are only compared are numbers too. Answers from outside (GitHub, the
operating system, a provider, the clock) are parameters, and every theorem quantifies over them.
Recovery runs alone, before any tick (`control/sjg_control/service.py:215-219`); the one at shutdown is
under "Left out".

## Where the code and its claims part

Each of these is proved here, and where the claim can be saved, with its exact condition.

- Restart recovery can raise its own `StateError`. It does if and only if some wake is prepared,
  has no process row, and its tokens or its delivery were already moved
  (`Recovery.RecoveryExactly`). Three ways there are proved (`Windows`): a provider spawned but never
  recorded, from holding the tokens until the wake is finished; a pause between quarantining a
  delivery and closing its session; and a tick of a second process whose sweep takes back a lease
  that ended before its wake was started. `Windows.OnlyDisturbanceBlocks` and
  `Windows.FreeingCalls` say which calls can do it at all.
- After a crash between finishing a wake and finishing its session, recovery never sees that
  session; it stays active (`WakeThreads.ProvedDeadLeavesOnlyFinalWakes`).
- An attempt update has no state guard: an attempt marked running after its session was
  terminated breaks the caps (`Capacities.LateStartBreaksCapacity`).
- A delivery given back because its role is taken in this tick loses an attempt; on its last one
  it is dead-lettered without having been started (`Ticks.LastAttemptIsBuried`).
- Routes of an expired lease keep reading leased while their delivery waits (`Boards.ExpiredLeaseKeepsRoutes`).
- Two polls of one source at the same time, by two processes, may set its watermark back
  (`RunPolls.LaterEndSetsBack`); no event is missed all the same (`RunPolls.NoEventIsMissed`).
- An answer to a read may change on a later identical request (`Brokers.ReadAnswersMayChange`).
- A write is left applying in exactly the cases that `Brokers.StaysApplyingIff` lists, one of them a
  `StateError` raised while its side effect runs; no later request or resolution moves it again
  (`Brokers.ApplyingIsForever`).
- Tokens a worker reports after its wake was billed are charged to nobody, so the bill is sure to be
  complete only if no attempt of the session is accepted or running when it is taken
  (`Usage.BillingIsCompleteIff`). A worker that ends in an exception other than a host error or
  a timeout is charged to nobody either (`Usage.Launcher.RunWorker`).
- A worker import takes no lock: an edit of a changed path after its conflict check and before its
  write is overwritten (`WorkerImport.EditIsLostIff`). One that breaks off between two files leaves
  the first ones imported (`WorkerImport.InterruptedIsPartial`), and a failure to make the scratch
  directory leaves the attempt accepted (`WorkerImport.Run`).
- One pass of `sync` leaves nothing to plan if and only if it opened and closed no managed issue
  that is titled as a proposal (`Governance.SyncConvergesExactly`).
- An action of `sync` that failed before its first write is never tried again while its issue and its
  content stay as they are: its key stays journalled, whatever its row is resolved to
  (`Retries.NothingIsTriedTwice`, `Retries.CarriedOutIff`). A desired source whose first posting was
  lost in transport is so never posted, until a person steps in.
- `verify_reconcile` does not read whether an issue is open: a reopening that failed is proved present
  if the closed issue is still on the queue (`Retries.PendingProof`), and its row succeeds.
- A ":" inside a run's status would let two versions share one event id
  (`Identity.ColonInStatusCollides`).

## Model

| member | source | states |
|---|---|---|
| Stores.Store.CreateSession | control/sjg_control/store.py:241-279 | opens a session unless its role is busy, the global cap of parents and busy workers is reached or a key clashes; a refusal changes nothing |
| Stores.Store.RevokeSession | control/sjg_control/store.py:293-306 | closes an active session with no busy worker; reservations are not looked at |
| Stores.Store.FinishSession | control/sjg_control/store.py:308-326 | closes an active session with no busy worker and no active reservation |
| Stores.Store.ForceTerminateSession | control/sjg_control/store.py:328-353 | in one transaction fails the busy workers, holds the active reservations, closes the session and ends its live wakes |
| Stores.Store.ReapExpiredSession | control/sjg_control/store.py:355-376 | the same without the wakes, only once the session has expired |
| Stores.Store.ReserveWorker | control/sjg_control/store.py:443-478 | admits an attempt below the cumulative, concurrent and global caps, numbered one past the session's attempts |
| Stores.Store.SetWorker | control/sjg_control/workers.py:314-356 | the attempt update with no state guard: it may write any state over any other |
| Stores.Store.ReserveBudget | control/sjg_control/store.py:813-854 | opens missing buckets, refuses a changed limit or a hold, and adds the request to exactly the organization and role buckets, or changes nothing |
| Stores.Store.SettleBudget | control/sjg_control/store.py:856-898 | moves a reservation from reserved to consumed in both buckets; crossing a boundary commits and then raises |
| Stores.Store.MarkBudgetUncertain | control/sjg_control/store.py:900-907 | holds an active reservation without moving a bucket |
| Stores.Store.ReleaseBudget | control/sjg_control/store.py:909-935 | gives an active reservation back to both buckets, or changes nothing |
| Stores.Store.FinishEventRouting | control/sjg_control/store.py:512-527 | decides a pending event once: ignored, or routed with one pending route |
| Stores.Store.EnqueueDelivery | control/sjg_control/store.py:947-991 | returns the prior delivery of a key, or binds the pending routes of all its events to a new one, or changes nothing |
| Stores.Store.LeaseDelivery | control/sjg_control/store.py:993-1052 | quarantines expired running deliveries, returns expired leases, buries exhausted ones and leases a delivery, stated on the rows alone: it was waiting, or leased unstarted until now, below the ceiling and eligible, and no other such delivery precedes it by eligible time and number; none is leased only if there is none |
| Leases.LeaseMoves | control/sjg_control/store.py:993-1052 | row by row: what each delivery and each route becomes at a lease call, and which delivery is handed out |
| Stores.Store.StartDelivery | control/sjg_control/store.py:1054-1061 | starts a delivery leased to this owner whose lease has not ended |
| Stores.Store.FinishDelivery | control/sjg_control/store.py:1063-1095 | ends, retries or budget-holds a delivery of this owner and relabels its routes with it |
| Stores.Store.ReleaseBudgetHold | control/sjg_control/store.py:1097-1108 | lets a budget-held delivery wait again |
| Stores.Store.ForceDeliveryUncertain | control/sjg_control/store.py:1110-1122 | quarantines a leased or running delivery whoever owns it |
| Stores.Store.PrepareWake | control/sjg_control/store.py:547-556 | records a wake under fresh session, reservation and socket |
| Stores.Store.MarkWakeRunning | control/sjg_control/store.py:558-564 | only a prepared wake starts |
| Stores.Store.FinishWake | control/sjg_control/store.py:566-576 | only a live wake ends, and only in a final state |
| Stores.Store.RecordProcess | control/sjg_control/store.py:578-587 | records a running process under a fresh key and process identity |
| Stores.Store.FinishProcess | control/sjg_control/store.py:589-598 | only a running process ends |
| Stores.Store.QuarantineWake | control/sjg_control/supervisor.py:262-268 | the supervisor's own update: the session's live wakes become uncertain |
| Stores.Store.RecoverOrphanSession | control/sjg_control/store.py:668-697 | closes a session that has no wake, process or worker and releases its reservation, or changes nothing |
| Stores.Store.RecoverPreparedWake | control/sjg_control/store.py:699-730 | fails a prepared wake with no process, releases its tokens, returns its delivery and closes its session, or changes nothing |
| Stores.Store.OpenCheckpoint | control/sjg_control/store.py:742-749 | the source's checkpoint, made at the initial time if there is none |
| Stores.Store.BeginSnapshot | control/sjg_control/store.py:751-757 | opens a collecting snapshot |
| Stores.Store.StageObservation | control/sjg_control/store.py:759-776 | stages an item of the snapshot's own source; the first of an event id wins |
| Stores.Store.FinishSnapshot | control/sjg_control/store.py:778-811 | publishes what is staged and not yet observed and moves the watermark, or closes the snapshot as incomplete |
| Stores.Store.PriorRequest | control/sjg_control/store.py:399-412 | the journalled response of a key, refused for another session, operation or arguments |
| Stores.Store.ReserveRequest | control/sjg_control/store.py:378-397 | journals a request under a fresh key, or answers with the prior one |
| Stores.Store.MarkRequestApplying | control/sjg_control/store.py:414-420 | only a reserved request starts applying |
| Stores.Store.AbandonReadRequest | control/sjg_control/store.py:422-433 | drops the row of an interrupted read and of nothing else |
| Stores.Store.FinishRequest | control/sjg_control/store.py:435-441 | writes state and response over a journalled request whatever its state |
| Stores.Store.ReserveReconcile | control/sjg_control/store.py:1124-1148 | journals a governance operation under a fresh key, or returns the prior one |
| Stores.Store.MarkReconcileApplying | control/sjg_control/store.py:1150-1157 | only a planned operation starts applying |
| Stores.Store.FinishReconcile | control/sjg_control/store.py:1159-1178 | applying may become pending or final, pending only final |
| Effects.CreatesIff | control/sjg_control/store.py:241-279 | opens a session for its time to live exactly when the role has no active one, the organization has fewer agents than the cap and neither number was used |
| Effects.RevokesIff | control/sjg_control/store.py:293-306 | closes exactly an active session without busy attempts |
| Effects.FinishesIff | control/sjg_control/store.py:308-326 | and finishes it if it also has no active reservation |
| Effects.HiresIff | control/sjg_control/store.py:443-478 | accepts an attempt exactly below its three caps in an unexpired session, and numbers it one past those the session had |
| Effects.SetsWorker | control/sjg_control/workers.py:314-356 | the attempt update sets the state of that attempt alone, whatever it was |
| Effects.ReservesIff | control/sjg_control/store.py:813-854 | sets the tokens aside, in the organization's and the role's bucket, exactly when both have room under the limits asked for and the session never reserved |
| Effects.OnlyNamedReserve | control/sjg_control/store.py:825-829 | and never for a bucket list that names anything else |
| Effects.SettlesIff | control/sjg_control/store.py:856-898 | moves the tokens out of both reserved columns and the actual ones into both consumed columns; the reservation ends uncertain exactly when it or a limit is exceeded |
| Effects.ReleasesIff | control/sjg_control/store.py:909-935 | gives the tokens of an active reservation back to both buckets, and nothing else does |
| Effects.HoldsIff | control/sjg_control/store.py:900-907 | holds exactly an active reservation |
| Effects.RoutesIff | control/sjg_control/store.py:512-527 | decides a pending event once: ignored, or given one pending route to its role |
| Effects.EnqueuesIff | control/sjg_control/store.py:947-991 | under a new key: exactly when all its events wait unbound for the role, they are bound to a queued delivery that lists exactly them |
| Effects.EnqueuesAgain | control/sjg_control/store.py:955-968 | under a used key: the same role and events get the delivery that has it, anything else is refused, and nothing changes |
| Effects.StartsIff | control/sjg_control/store.py:1054-1061 | starts exactly a delivery whose lease is the caller's own and has not ended |
| Effects.FinishesDelivery | control/sjg_control/store.py:1063-1095 | which outcomes an owner may report before and after the start, what each makes of the delivery and its routes, and that only a budget hold gives an attempt back |
| Effects.ReleasesHold | control/sjg_control/store.py:1097-1108 | lets exactly a held delivery wait again, with its routes queued |
| Effects.QuarantinesIff | control/sjg_control/store.py:1110-1122 | makes exactly a leased or running delivery uncertain, with its routes under review |
| Effects.PreparesIff | control/sjg_control/store.py:547-556 | records a prepared wake exactly when its session, reservation and delivery exist and no wake has its number, session, reservation or socket |
| Effects.WakesMoveIff | control/sjg_control/store.py:558-576 | only a prepared wake starts, and only a live one ends, in a final state |
| Effects.RecordsIff | control/sjg_control/store.py:578-587 | records a running process exactly under a fresh key and a fresh pair of number and birth |
| Effects.ProcessesEndIff | control/sjg_control/store.py:589-598 | only a running process ends |
| Effects.OpensOnce | control/sjg_control/store.py:742-749 | a source gets its checkpoint once, with an overlap of 300 seconds, and keeps it |
| Effects.BeginsIff | control/sjg_control/store.py:751-757 | a snapshot begins collecting under a fresh number |
| Effects.StagesIff | control/sjg_control/store.py:759-776 | stages an item exactly in a collecting snapshot of its own source; the first under an event id stays |
| Effects.PublishesIff | control/sjg_control/store.py:778-811 | publishes exactly the events staged in this snapshot and never observed, each to be routed; an incomplete snapshot publishes nothing |
| Effects.RequestsIff | control/sjg_control/store.py:378-412 | a fresh key is journalled as reserved, a repeated request gets the journalled response, and any other use of the key is refused |
| Effects.AppliesIff | control/sjg_control/store.py:414-420 | only a reserved request starts applying |
| Effects.AnswersIff | control/sjg_control/store.py:435-441 | any journalled request takes an answer over whatever it has |
| Effects.ForgetsReads | control/sjg_control/store.py:422-433 | only a read is ever forgotten |
| Effects.PlansIff | control/sjg_control/store.py:1124-1148 | a fresh key is journalled as planned; a used one gives its row back to the same plan only |
| Effects.OperationsMoveIff | control/sjg_control/store.py:1150-1178 | planned becomes applying, applying pending or final, pending final, and nothing else moves |
| Ledgers.ReserveKeepsLedger | control/sjg_control/store.py:813-854 | a reservation keeps every bucket equal to the sums over reservations and settlements, and within limit plus overage |
| Ledgers.SettleKeepsLedger | control/sjg_control/store.py:856-898 | so does a settlement, also one that crosses a boundary |
| Ledgers.ReleaseKeepsLedger | control/sjg_control/store.py:909-935 | so does a release |
| Ledgers.HoldKeepsLedger | control/sjg_control/store.py:328-376 | turning active reservations into held ones frees no token |
| Ledgers.CoverGuardsUnreachable | control/sjg_control/store.py:881-882 | under the ledger the refusal that a bucket does not cover the reservation cannot occur: settling or releasing an active reservation commits |
| Ledgers.HonestSettlementIsCertain | control/sjg_control/store.py:856-898 | a settlement within its reservation, on buckets with no earlier overage, is never uncertain |
| Ledgers.ReserveKeepsDoubleEntry | control/sjg_control/store.py:813-854 | per epoch the organization buckets and the role buckets hold the same totals after a reservation |
| Ledgers.SettleKeepsDoubleEntry | control/sjg_control/store.py:856-898 | and after a settlement |
| Ledgers.ReleaseKeepsDoubleEntry | control/sjg_control/store.py:909-935 | and after a release |
| RunLedger.StepKeepsSound | control/sjg_control/store.py:228-236 | every store transaction keeps ledger and double entry, a refused one by changing nothing |
| RunLedger.RunsBalance | control/sjg_control/store.py:813-935 | over every run of all store transactions: reserved is the sum of active and held reservations, consumed the sum of settled actuals, no bucket exceeds its limit by more than its overage, and both books agree |
| RunLedger.RunsNeverMeetCoverGuards | control/sjg_control/store.py:856-935 | no reachable state refuses to settle or release an active reservation |
| RunLedger.UncertainOnlyByItself | control/sjg_control/store.py:856-898 | in every reachable state in which no earlier settlement exceeded its reservation, no bucket is over its limit, and a settlement is turned uncertain if and only if it exceeds its own reservation |
| Boards.SweepsKeepBoard | control/sjg_control/store.py:1002-1033 | the sweeps of a lease call keep routes, deliveries and memberships consistent |
| Boards.ExpiredLeaseKeepsRoutes | control/sjg_control/store.py:1016-1020 | an expired lease below the ceiling goes back to waiting while its routes still read leased |
| Boards.LeaseCases | control/sjg_control/store.py:993-1052 | a lease call leaves the swept tables, with at most one delivery leased for the given time |
| Boards.LeavesKeepBoard | control/sjg_control/store.py:993-1052 | a lease keeps the board and is only given below the retry ceiling |
| Boards.FinishKeepsBoard | control/sjg_control/store.py:1063-1095 | finishing keeps routes following their delivery and attempts between 0 and the ceiling |
| Boards.FinishAdvances | control/sjg_control/store.py:1063-1095 | finishing never moves a delivery back to before it ran |
| Boards.StartKeepsBoard | control/sjg_control/store.py:1054-1061 | starting keeps the board and moves the delivery forward |
| Boards.RoutingKeepsBoard | control/sjg_control/store.py:512-527 | a routed event has exactly one route, a pending or ignored one none |
| Boards.EnqueueCases | control/sjg_control/store.py:947-991 | a committed enqueue found the prior delivery, or bound every event's pending route to a new one |
| Boards.EnqueueKeepsBoard | control/sjg_control/store.py:947-991 | an enqueue keeps every route pending and unbound, or bound to one delivery of its role that lists it |
| Boards.RetryLeasedKeepsBoard | control/sjg_control/store.py:652-666 | returning a leased delivery during recovery keeps the board |
| Boards.ForceUncertainKeepsBoard | control/sjg_control/store.py:1110-1122 | quarantining a delivery keeps the board and is final |
| Boards.ReleaseHoldKeepsBoard | control/sjg_control/store.py:1097-1108 | releasing a hold keeps the board |
| RunBoard.StepProgresses | control/sjg_control/store.py:512-1122 | every transaction keeps the board, moves deliveries only forward and forgets no event, decision or binding |
| RunBoard.RunsKeepBoard | control/sjg_control/store.py:512-1122 | over every run the board holds and each delivery's attempt is its leases less its budget holds |
| RunBoard.RunsMoveForward | control/sjg_control/store.py:993-1122 | from any sound state on, a delivery that ran is never leasable again and a finished one never changes; what is observed, routed or bound stays so |
| RunBoard.LeasesAreBounded | control/sjg_control/store.py:993-1108 | leases are at most the ceiling plus the budget holds, and a delivery starts at most once |
| RunBoard.MembersAreRoutes | control/sjg_control/store.py:540-545 | the rows listed under a delivery are exactly the routes bound to it, all of its role |
| Policies.Compile | control/sjg_control/policy.py:104-238 | a policy comes out exactly when every agent is acceptable, none repeats, the required roles are there and globalMaxAgents is the sum of one parent and the concurrent workers of each; then it has exactly the roles of the agents, each with its agent's types, counts and budget |
| Policies.AcceptableIff | control/sjg_control/policy.py:160-204 | an agent is acceptable exactly when its role, its worker types, its counts and its budget are in their bounds |
| Capacities.FreeSeatBelowCap | control/sjg_control/policy.py:209-211 | a seat free in one role is a seat free under the global cap |
| Capacities.AdmitNeverMeetsGlobalCap | control/sjg_control/store.py:255-278 | under a compiled policy a session is refused for a busy role exactly when the role has a parent, never for the global cap |
| Capacities.HireNeverMeetsGlobalCap | control/sjg_control/store.py:443-478 | nor is a worker: its parent's own caps refuse first |
| Capacities.AdmitKeepsCapacity | control/sjg_control/store.py:241-279 | a new session keeps one parent a role and every count within its caps |
| Capacities.HireKeepsCapacity | control/sjg_control/store.py:443-478 | a new attempt keeps the numbering 1 to n and the caps |
| Capacities.ClosingKeepsCapacity | control/sjg_control/store.py:293-376 | closing a session with its workers failed or absent keeps them too |
| Capacities.WorkerUpdateKeepsCapacity | control/sjg_control/workers.py:314-356 | the unguarded attempt update keeps the caps if and only if it is final, or the attempt was busy, or its session is active with a seat left |
| Capacities.LateStartBreaksCapacity | control/sjg_control/workers.py:314-315 | an attempt marked running after its session was terminated breaks them |
| RunCapacity.RunsKeepCapacity | control/sjg_control/store.py:241-478 | over every run whose callers pass the policy's own caps and mark no attempt running too late: one active parent a role, busy workers only under active sessions, attempts numbered from one within the caps |
| RunCapacity.StepKeepsParents | control/sjg_control/store.py:241-376 | whatever workers do, every transaction keeps one active parent a role, of a role and organization of the policy |
| RunCapacity.RunsNeverMeetGlobalCap | control/sjg_control/store.py:255-278 | in none of its states is the global cap what refuses |
| Readiness.StepKeepsReady | control/sjg_control/supervisor.py:486-686 | every call in the supervisor's order keeps: one wake a session, live wakes under active sessions, processes after wakes, workers after processes, and tokens released only for sessions with no process |
| Recovery.LiveWakesShareNothing | control/sjg_control/store.py:610-615 | two live wakes never share a session or a delivery |
| Recovery.ReleaseForCommits | control/sjg_control/store.py:626-649 | releasing for a session is refused exactly when its reservation is no longer active |
| Recovery.PreparedRecoversExactly | control/sjg_control/store.py:699-730 | recovering an unstarted wake is refused if and only if its tokens or delivery were already moved |
| Recovery.TerminateSession | control/sjg_control/host_process.py:469-491 | every running process of the session is marked by whether its death was proved; complete means all were |
| Recovery.TerminateWake | control/sjg_control/supervisor.py:243-271 | proved dead: delivery quarantined and session closed, refused if it is not active; otherwise the wake is left uncertain for a person; the rows it leaves are those of `Endings` |
| Recovery.RecoverWake | control/sjg_control/supervisor.py:219-240 | one round of the second loop: unstarted wakes are released, all others terminated |
| Recovery.RunOrphans | control/sjg_control/supervisor.py:212-218 | the first loop, stopping at the first refusal |
| Recovery.RunWakes | control/sjg_control/supervisor.py:219-240 | the second loop, over rows listed before the first |
| Recovery.Recover | control/sjg_control/supervisor.py:202-241 | recover is exactly the two loops, over the orphans and the live wakes listed first; the rows it leaves are those of `Endings` |
| Recovery.OrphansAllRecover | control/sjg_control/supervisor.py:212-218 | the first loop never raises |
| Recovery.WakesRecoverExactly | control/sjg_control/supervisor.py:219-240 | the second raises if and only if a listed wake is blocked |
| Recovery.RecoveryExactly | control/sjg_control/supervisor.py:202-241 | from any database the protocol can leave: recover succeeds if and only if no wake is blocked; then no wake is prepared or running, counts add up, and a session stays active only if its wake was over or not proved dead; released tokens always belong to sessions without a process |
| Endings.RecoveryLeaves | control/sjg_control/supervisor.py:202-271 | row by row, from the tables alone: an unstarted wake and an orphan give their tokens and delivery back and are closed; a started wake proved dead is closed, its delivery, if leased or running, made uncertain with its routes under review, its tokens held and its attempts failed; one not proved dead keeps session, delivery, tokens and attempts and is left uncertain; no other row changes |
| Endings.RecoveryCounts | control/sjg_control/supervisor.py:212-240 | the answer counts the orphans and the wakes that were recovered, and those left in doubt |
| Endings.CrashLeaves | control/sjg_control/supervisor.py:202-271 | so it does after any run of concurrent wakes stopped after any transaction, if no wake is blocked |
| Endings.OrphanReturns | control/sjg_control/store.py:668-697 | a wake thread that stopped before its wake was prepared returns its delivery in the same way |
| Endings.TerminationCuts | control/sjg_control/store.py:328-353 | forced termination fails exactly the formerly busy attempts of the session, holds exactly its active reservations, ends exactly its live wakes, and leaves every other row |
| Endings.ReapingCuts | control/sjg_control/store.py:355-376 | reaping does the same without the wakes, exactly when the session has expired |
| WakeThreads.ForeignLeaves | control/sjg_control/supervisor.py:486-686 | a call about one session leaves every row another session's thread relies on |
| WakeThreads.OwnCallFits | control/sjg_control/supervisor.py:486-686 | each call of a wake's own thread leaves what its next point assumes |
| WakeThreads.EventsKeepSafe | control/sjg_control/supervisor.py:486-686 | every event of concurrent wakes, workers, pauses and ticks, every failure, every crash and every transaction of a recovery keeps all invariants at once |
| WakeThreads.RunsAreSafe | control/sjg_control/supervisor.py:486-686 | so does every run of them from an empty database, over any number of boots |
| WakeThreads.PunctualRunsKeepCapacity | control/sjg_control/store.py:443-478 | such a run keeps the workers' caps too, if each worker was accepted under the policy's caps and marked running in time |
| WakeThreads.CrashIsRecoverable | control/sjg_control/supervisor.py:202-241 | stop any run after any transaction, over any number of boots whose recoveries were complete or cut short: recovery at the restart concludes as stated above |
| Restarts.RestartIsRepairs | control/sjg_control/supervisor.py:202-271 | whatever a recovery does to the database, raising or not, a sequence of the recovery transactions of a run does |
| Restarts.RestartIsARun | control/sjg_control/supervisor.py:202-241 | so a crash with the recovery after it extends any run to a run with no thread left, and the results about runs hold at the next crash |
| WakeThreads.ProvedDeadLeavesOnlyFinalWakes | control/sjg_control/supervisor.py:617-621 | with every running process proved dead, the sessions still active are exactly those whose wake was already over |
| Windows.HoldingBeforeEndingBlocks | control/sjg_control/supervisor.py:630-650 | spawned but never recorded: holding the tokens leaves a blocked wake at once |
| Windows.HeldStaysBlocked | control/sjg_control/supervisor.py:630-650 | and in every later state of the run in which that wake is still unstarted, while its delivery is quarantined and until it is finished |
| Windows.PausingUnstartedBlocks | control/sjg_control/supervisor.py:252-258 | a pause that has quarantined the delivery of an unstarted wake leaves one too |
| Windows.SweepingUnstartedBlocks | control/sjg_control/store.py:1016-1033 | so does the sweep of a lease call once the lease of an unstarted wake's delivery has ended, unless that call leases the same delivery; at the retry ceiling it never does |
| Windows.RecoverCanRaise | control/sjg_control/supervisor.py:202-241 | under every sound policy some run ends in a state where recover raises its own StateError |
| Windows.OnlyDisturbanceBlocks | control/sjg_control/store.py:617-730 | no other call of the protocol blocks a wake: only settling or holding its reservation, taking its own leased delivery out of the leased state, or preparing it |
| Windows.FreeingCalls | control/sjg_control/store.py:993-1122 | and the delivery calls that do the second are starting, finishing or quarantining that very delivery, and a lease call after its lease has ended |
| Identity.EventIdentityExact | control/sjg_control/delivery.py:41-54 | two items get the same event id if and only if they are of the same source and agree in its fields: number or id and the time of the last change, for a run also attempt, status and conclusion |
| Identity.ColonInStatusCollides | control/sjg_control/delivery.py:41-54 | without colon-free fields two different runs share one id |
| Polling.StagePage | control/sjg_control/delivery.py:95-100 | the inner loop stages a page in order and stops at its first undated item |
| Polling.CollectPages | control/sjg_control/delivery.py:85-103 | the fetch loop stages exactly the items of the pages and keeps their latest time, or stops undated |
| Polling.PollSource | control/sjg_control/delivery.py:75-115 | a whole poll adds exactly its items, to be routed, to the observed events and moves the watermark to the latest time; a poll that fails at any page changes neither; the source is asked from the watermark less the stored overlap, and which pages were fetched |
| RunPolls.StepStands | control/sjg_control/store.py:742-811 | no other transaction of the store moves the watermark of a source or forgets an event |
| RunPolls.OverlapsStay | control/sjg_control/store.py:742-811 | every checkpoint keeps the overlap of 300 seconds it was made with |
| RunPolls.NoEventIsMissed | control/sjg_control/delivery.py:61-115 | from any state on, over whole, failed and overlapping polls of this and other sources with any transactions between and within them, each answered from the time the code asks from by a source that shows no event later than the stored overlap behind the newest: every event between the first and the last watermark, each less the overlap, is observed, and nothing observed is lost; no poll leaves the watermark below the one it read |
| RunPolls.LaterEndSetsBack | control/sjg_control/delivery.py:78-115 | of two polls that read the same watermark the later to end sets it back if and only if it saw less recent events |
| Polling.LateEventIsMissed | control/sjg_control/delivery.py:61-72 | an event indexed later than the overlap is passed by, by a run of whole polls |
| Brokers.Apply | control/sjg_control/broker.py:55-102 | from the side effect on: each kind of exception takes its own branch and journals what it says; the table of endings is `Brokers.StartedEnds` |
| Brokers.Journal | control/sjg_control/broker.py:51-61 | reserve and mark before the side effect; a prior response is returned instead |
| Brokers.Handle | control/sjg_control/broker.py:30-102 | the whole dispatch, with a failure or a crash possible at every call |
| Brokers.StartedEnds | control/sjg_control/broker.py:51-102 | a table of endings, under a fresh key: by how its side effect ended, whether a write and whether the journal could be written, the state of the row and the answer of a started request; an ambiguous write is left to be verified and answered as indeterminate, never as denied |
| Brokers.UnstartedEnds | control/sjg_control/broker.py:30-57 | a request that does not start is answered by the first gate that shuts, and runs nothing |
| Brokers.JournalledAnswers | control/sjg_control/broker.py:43-47 | under a used key the journalled response is the answer, or that there is none yet, or a conflict, and nothing runs or changes |
| Brokers.WritesFailIff | control/sjg_control/broker.py:62-101 | a fresh write is journalled failed if and only if the side effect was denied, to be verified if and only if its outcome is unproved, and succeeded if and only if it completed |
| Brokers.HandledDispatches | control/sjg_control/broker.py:51-57 | a side effect starts only from a row this very request has just inserted |
| Brokers.HandledKeepsSound | control/sjg_control/broker.py:30-102 | whatever fails, each write has run at most once, only with its journalled arguments, and no finished write is disturbed |
| Brokers.WritesRunAtMostOnce | control/sjg_control/broker.py:30-102 | so over any sequence of requests and of resolutions by proof |
| Brokers.OkIsDone | control/sjg_control/broker.py:56-61 | an ok answer is journalled before it is given |
| Brokers.DoneAnswersAgain | control/sjg_control/broker.py:43-47 | the same request again from a live session gets the same answer and nothing runs |
| Brokers.OkAnswersStand | control/sjg_control/broker.py:30-102 | once a write was answered ok, every later identical request is, for ever |
| Brokers.StaysApplyingIff | control/sjg_control/broker.py:51-102 | under a fresh key the row is left applying if and only if its side effect was started and either the process died in it, the store refused in it, it failed otherwise and the journal could not be written, or its result was not written; what the audit does decides nothing |
| Brokers.DispatchLeavesWrites | control/sjg_control/broker.py:30-102 | no request changes the journalled row of an earlier write |
| Brokers.ApplyingIsForever | control/sjg_control/store.py:732-740 | a write left applying is never moved again, by no request and no resolution |
| Brokers.ReadAnswersMayChange | control/sjg_control/broker.py:88-94 | not so for a read: an unexpected error drops its row and the next request runs again |
| Verification.ProgramsMarkOnce | control/sjg_control/github_backend.py:340-514 | each write operation makes at most one remote write whose body holds its marker |
| Verification.CarriedOnce | control/sjg_control/verification.py:43-48 | one program of remote writes, stopped anywhere, leaves its marker on at most one item |
| Verification.MarkerProves | control/sjg_control/verification.py:43-48 | a complete listing proves an effect absent if no item carries the marker, present if one does and clashing if two do |
| Verification.OneCarrierPerKey | control/sjg_control/verification.py:43-48 | after any run in which each write ran at most once, at most one remote item carries a given key's marker |
| Verification.ControllerWritesNeverClash | control/sjg_control/verification.py:43-48 | so a complete listing proves a controller write present or absent, never conflicting |
| Verification.ResolvePending | control/sjg_control/verification.py:186-217 | the two loops over the pending broker rows and the pending reconciliations |
| Verification.ResolvingIsExact | control/sjg_control/verification.py:186-217 | afterwards a pending row is as it was if its proof is unknown, succeeded with the proved result if present, and failed and denied, or dead-lettered, if absent or clashing; every other row is untouched, and each proof counts exactly its rows |
| Reconciling.Plan | control/sjg_control/reconcile.py:40-53 | nothing is planned while any observation is incomplete or unknown |
| Reconciling.PlansExactly | control/sjg_control/reconcile.py:40-53 | nothing is planned exactly when an observation is in doubt or all is as wanted; whatever is planned makes it so in one step, and only what is absent is created |
| Governance.Snapshot | control/sjg_control/governance.py:165-214 | the planned actions are the creations of wanted sources not on the queue, each with the content desired for it and the version of its one issue, if it has one, and the closures of unwanted ones on it, with their versions; sources with clashing markers are conflicts |
| Governance.Apply | control/sjg_control/governance.py:221-281 | one action through the journal: a used key writes nothing, a lost marker is dead-lettered, a transport failure leaves the row pending and an unusable answer dead-letters it, both with the writes made so far |
| Governance.ApplyAll | control/sjg_control/governance.py:288-291 | the actions in order, ending at the first refusal of the journal |
| Governance.Sync | control/sjg_control/governance.py:283-293 | with clashing markers nothing is written; otherwise one pass over the snapshot's actions, answered with what each of them ended as |
| Postings.DesiredIs | control/sjg_control/governance.py:119-131 | desired are the given sources and the open proposals, each of these under its own title |
| Postings.ConflictsAreClashes | control/sjg_control/governance.py:178 | conflicts are exactly the sources whose marker two issues carry |
| Postings.ActionEnds | control/sjg_control/governance.py:221-281 | an action under a fresh key is journalled under what it was planned from and ends succeeded, pending or dead-lettered as its writes went |
| Postings.PriorActionEnds | control/sjg_control/governance.py:238-239 | an action whose key is journalled already is answered from its row, and nothing is written |
| Postings.WritesSoFar | control/sjg_control/governance.py:242-271 | which issues are posted, reopened, put on the queue or closed after each number of writes |
| Postings.SyncPosts | control/sjg_control/governance.py:165-293 | after a pass without failures every issue that appeared carries the marker and the title of a desired source and is its one open child of the queue, and the journal holds exactly the planned actions, succeeded |
| Postings.PassesSucceed | control/sjg_control/governance.py:288-291 | and every action is answered with success |
| Retries.PendingProof | control/sjg_control/verification.py:140-183 | a planned action whose transport failed is proved present if and only if it is achieved, or was to reopen an issue still on the queue and wrote nothing; otherwise absent |
| Retries.CarriedOutIff | control/sjg_control/governance.py:230-241 | an action is carried out if and only if its key is not journalled past its planning |
| Retries.NothingIsTriedTwice | control/sjg_control/governance.py:221-293 | once a pass left the queue as it was, no later pass writes anything, over any passes and any resolutions by proof, while nobody else changes the queue or what is desired of it |
| Governance.WritingAchieves | control/sjg_control/governance.py:242-271 | a completed action settles its own source, leaves every other source as it was, and opens or closes no issue but its own |
| Governance.PassesAchieve | control/sjg_control/governance.py:283-293 | a pass without failures achieves every planned action |
| Governance.SyncSettles | control/sjg_control/governance.py:165-293 | after it the open marker-owned children of the queue are exactly the desired sources, each under one marker |
| Governance.SyncConvergesExactly | control/sjg_control/governance.py:165-293 | a second snapshot plans nothing if and only if no action of the first opened or closed a managed issue titled as a proposal |
| Governance.ManagedProposalUndoesItself | control/sjg_control/governance.py:119-131 | an input where it does: closing the issue removes the proposal the queue was asked to hold |
| Governance.PassesTouchOnlyMarked | control/sjg_control/governance.py:221-281 | however many writes fail, no issue without a governance marker changes |
| Governance.LostMarkerIsDeadLettered | control/sjg_control/governance.py:246-279 | an issue that lost its marker before it is reopened is left alone and its row dead-lettered |
| Ticks.RoutingSucceeds | control/sjg_control/supervisor.py:360-371 | routing a pending event is never refused |
| Ticks.BoundAreNotPending | control/sjg_control/store.py:529-538 | the events of a delivery are bound to it, so none is listed as pending |
| Ticks.DigestIsFresh | control/sjg_control/delivery.py:118-120 | no older delivery holds the route key of pending events, as long as deliveries hold the keys of their own events |
| RunKeys.RunsKeepHonestKeys | control/sjg_control/delivery.py:118-120 | over every run whose enqueues use the route key of their own role and events, each delivery holds the key of exactly its events |
| RunKeys.TickEnqueueBinds | control/sjg_control/supervisor.py:379-383 | so in no reachable state does the tick's enqueue raise or return an old delivery |
| Ticks.EnqueueBatches | control/sjg_control/supervisor.py:378-383 | every role's batch gets its own new delivery holding exactly its events, and the keys stay those of their events |
| Ticks.LeaseRound | control/sjg_control/supervisor.py:395-420 | within one lease period: pairwise distinct roles, at most the limit, all still leased to this owner, led by the delivery that is due first; what else was leased on the way was given back because its role was listed; the round stops early only at the limit or when nothing is due; and if its retry times lie after it, no delivery is leased twice |
| Ticks.LastAttemptIsBuried | control/sjg_control/supervisor.py:402-410 | a second delivery of a role, given back unstarted, is dead-lettered by the next lease call if and only if its attempts had reached the ceiling |
| Usage.Launcher.RunWorker | control/sjg_control/host_process.py:334-356 | known usage is added to the session's meter, an error of the host or a missing record marks it uncertain, any other exception does neither |
| Usage.Launcher.TakeWorkerUsage | control/sjg_control/host_process.py:358-364 | hands over the sum reported since the last taking, or nothing if one report was unknown, and resets both meters |
| Usage.TokensAreConserved | control/sjg_control/host_process.py:334-364 | over any history of interleaved sessions, what the workers of a session reported is what was billed plus what is still unread |
| Usage.BillingIsCompleteIff | control/sjg_control/host_process.py:358-364 | what is taken is the whole bill, whatever the attempts then known still do, if and only if none of the session's attempts is accepted or running at the taking |
| Usage.ChargeWake | control/sjg_control/supervisor.py:598-636 | with all usage known, both buckets consume exactly the parent's tokens and the sum its workers reported since the last taking, and that is returned unless a boundary was crossed; with one usage unknown no bucket moves and the reservation is held; a broken run leaves the meters unread |
| Usage.KnownUsageIsCharged | control/sjg_control/supervisor.py:603-616 | exactly that sum enters the consumed column of both buckets and the reservation leaves them, also when a boundary is crossed |
| Usage.KnownUsageKeepsLedger | control/sjg_control/store.py:856-898 | charging known usage keeps ledger and sums |
| Usage.UnknownUsageIsHeld | control/sjg_control/supervisor.py:601-636 | with one unknown usage no bucket moves and the reservation stays set aside whole |
| WorkerImport.Admit | control/sjg_control/workers.py:277-293 | a call is admitted if and only if its type is allowed and sealed, its text is in size, both path lists are accepted, exactly an implementer names write paths and every write path is an input |
| WorkerImport.AcceptableIff | control/sjg_control/workers.py:37-55 | in the caller's own terms: 1 to 32768 bytes of text, at most 200 different safe paths in each list, every path to write among those to read, and something to write exactly for an implementer |
| WorkerImport.Paths | control/sjg_control/workers.py:37-55 | a path list is accepted if and only if it has at most 200 entries, all safe relative paths, none twice; then it is the set of them |
| WorkerImport.Differences | control/sjg_control/workers.py:324-326 | the sorted paths at which the scratch tree differs from its first snapshot |
| WorkerImport.MeasurePatch | control/sjg_control/workers.py:330-332 | the summed size of the changed files |
| WorkerImport.IsStale | control/sjg_control/workers.py:335-339 | whether the parent differs from the first snapshot at any changed path |
| WorkerImport.Workspace.Import | control/sjg_control/workers.py:340-345 | after its first writes exactly those paths have the scratch content and no other path changed |
| WorkerImport.Run | control/sjg_control/workers.py:272-359 | a refused reservation changes nothing; with no scratch directory the attempt stays accepted; otherwise it ends succeeded exactly when the output was imported, else failed, and the workspace is as the verdict of the checks says |
| WorkerImport.OutputEnds | control/sjg_control/workers.py:320-347 | the first of four faults refuses an output and leaves the parent its own tree: a long answer, a path out of scope, too many bytes, a path the parent changed too; without one exactly the paths the worker touched are written, in order |
| WorkerImport.ImportMerges | control/sjg_control/workers.py:324-345 | success is a three-way merge if and only if no changed path was edited between its check and its write: the parent differs from before the import exactly on the changed paths, inside the write paths, with the scratch content, and no changed path was edited before the check |
| WorkerImport.StaleIff | control/sjg_control/workers.py:333-339 | an output in scope and size is refused as stale if and only if some path it changed was changed in the parent too |
| WorkerImport.EarlyEditIsKept | control/sjg_control/workers.py:333-339 | however the run ends, an edit of the parent made before the paths are checked is kept |
| WorkerImport.EditIsLostIff | control/sjg_control/workers.py:335-345 | the import takes no lock: an edit is lost if and only if it was made on a written path after that path was checked, and differs from what is written there |
| WorkerImport.InterruptedIsPartial | control/sjg_control/workers.py:340-345 | with no such edit, an import cut short leaves the parent untouched if and only if it was cut before its first write |
| Routing.Roster | bin/orggen:90-118 | a roster comes out if and only if no role repeats or is unknown and every default role is named; the governance reviewer is last and the others keep their order |
| Routing.RouteEvent | control/sjg_control/routing.py:130-152 | the first rule whose tests all hold decides; a label target needs exactly one role label |
| Routing.RoutingIsExact | bin/orggen:169-247 | for every legal roster and every event, interpreting the generated table gives the promised routing |
| Routing.RouteRow | control/sjg_control/supervisor.py:360-367 | a row that cannot be normalized wakes nobody; any other is routed by the rules |
| Routing.PayloadsRoute | control/sjg_control/routing.py:103-152 | end to end from a payload, under the generated table: labels decide, the parent's for a comment; an unlabelled issue goes to the governance reviewer, an unlabelled pull request in any state to its repository's default, a run by its workflow and conclusion |
| Routing.LabelsDecide | control/sjg_control/routing.py:130-152 | on an issue, comment or pull request one listed role label names its role and two or more wake nobody |
| Routing.GeneratedRulesLoad | control/sjg_control/routing.py:49-86 | the loader accepts every generated table: each target is a role of the roster |
| Framing.SizeOfHeader | control/sjg_control/protocol.py:19-46 | the four length bytes read back as the length |
| Framing.HeaderIsBigEndian | control/sjg_control/protocol.py:19-24 | the first length byte is the most significant |
| Framing.Connection.ReadExact | control/sjg_control/protocol.py:26-33 | however the stream is cut, all of the bytes or none usable |
| Framing.Connection.ReceiveMessage | control/sjg_control/protocol.py:36-46 | one frame, and exactly its bytes consumed |
| Framing.ReceiveAll | control/sjg_control/protocol.py:36-46 | repeated receives, one after the other |
| Framing.FrameRoundTrip | control/sjg_control/protocol.py:19-46 | a body up to a mebibyte comes back from its own bytes, whatever follows |
| Framing.DeliveredIff | control/sjg_control/protocol.py:36-46 | a body is delivered exactly when it is at most a mebibyte and the stream starts with its header and all of its bytes; a longer announcement is refused |
| Framing.StreamRoundTrip | control/sjg_control/protocol.py:19-46 | any sequence of bodies comes back in order and consumes exactly their bytes |
| Framing.TruncatedNeverDelivers | control/sjg_control/protocol.py:26-46 | a cut-off frame never yields a message |

## Left out

- Stores.Store.LeaseDelivery: the returned row is its id, and the race refusal inside the transaction cannot occur in a serial store.
- Stores.Store.FinishReconcile: result payloads are not kept.
- Ticks.LeaseRound: holds within one lease period, that is while all its lease calls fall before the first lease could end; beyond it an earlier lease of the same round may expire.
- Ticks.EnqueueBatches: the per-role row limit of pending events and the row limit of unrouted events only shorten the batches, and are taken as part of the given batches.
- Recovery.Recover: the two listings are taken in any order; the source orders them by start time.
- RunCapacity.RunsKeepCapacity: for runs in which no attempt is marked running after its session was closed; `Capacities.LateStartBreaksCapacity` shows that the code does not exclude it, `Capacities.WorkerUpdateKeepsCapacity` when it matters, and `RunCapacity.StepKeepsParents` what holds regardless.
- RunCapacity.RunsNeverMeetGlobalCap: for the same runs.
- Policies.Compile: agent metadata, repository scopes, the control release and the workflow settings are not modelled, nor the refusals about them.
- WakeThreads.CrashIsRecoverable: the recovery at shutdown (`control/sjg_control/service.py:260-262`) and the one an operator starts from the command line may run beside live threads; only recoveries with no thread left are modelled.
- WakeThreads.RunsAreSafe: the operator's paused flag and the socket thread's own failures are any failure of the thread.
- Brokers.Handle: one request of a session at a time, malformed requests typed away, and policy and remote facts as opaque answers; rows of the audit log are not kept.
- Verification.ResolvePending: the verifier's reads of the remote side are given verdicts; what is proved of them is `_unique` over a complete listing and, for the queue, `Retries.PendingProof`.
- Retries.PendingProof: complete reads; the answers to an unknown repository, an unusable queue number or a failed read are not modelled, nor the move branch, since governance journals no moves.
- Retries.NothingIsTriedTwice: for passes the journal did not refuse; an edit of an issue by somebody else gives it a new version, and with it a new key.
- Verification.OneCarrierPerKey: texts supplied by users and providers are taken to hold no marker of another key.
- Verification.ControllerWritesNeverClash: of `verify_broker`, the branch that searches a listing for a marker; the branches that read a state or a file instead are given verdicts.
- Polling.PollSource: etag and query fingerprint are left out, since the sources ignore them; the staged payload text is not kept.
- Governance.Snapshot: commissioning, blockers.yaml and pull-request facts are the given desired sources; the sorted order is any order.
- Usage.ChargeWake: starts once the provider was spawned; the earlier failure branches are those of `WakeThreads`.
- WorkerImport.Run: no other writer of the attempt table runs between its own statements; the case where one does is `Capacities.LateStartBreaksCapacity`. The check that the caller's session equals the stored one is left out.
- Usage.BillingIsCompleteIff: attempts admitted after the taking are not among those that may still report.
- WorkerImport.InterruptedIsPartial: stated for imports in which no changed path is edited between its check and its write; what such edits do is `WorkerImport.EditIsLostIff`.
- Framing.Connection.ReceiveMessage: the checks that a body is JSON and an object are not modelled.
- Reconciling.Plan: what performing an operation does on the remote side; `Governance` models it for the queue.
- Routing.RoutingIsExact: takes the policy's roles to be the roster's, as `orggen` writes them.
- Routing.GeneratedRulesLoad: the YAML text and its syntax checks are not modelled, only the targets and emptiness of each rule.
- Capacities.AdmitNeverMeetsGlobalCap: for callers that pass the policy's own organization and caps, as the supervisor does.
- Process spawning, signals and process identity: a set of processes proved dead stands for them.
- WorkerImport.Paths: whether one text is a safe relative path is given; the order of the returned paths is not kept, since they are only used as sets.
- Directory file descriptors, symbolic links and file modes: a tree is a map from path to digest and size.
- The GitHub transport, JSON and YAML encodings, prompts, provider command lines, configuration and the command-line tools.
- The authorization rules one by one, and `add_route`, which nothing in the control plane calls.
- The truncation of digests to 40 characters in two idempotency keys.
