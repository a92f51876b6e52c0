# A verified model of MCServerNap

MCServerNap keeps a Minecraft server asleep until a player knocks. For every configured server one *supervisor* task
owns the server process and a watched lifecycle value; any number of *client* tasks proxy connections to the backend,
and share with the supervisor a cycle-tagged activity counter, a read/write gate and a one-slot wake channel. A
*coordinator* starts one runtime a server and joins them all. This project models these parts in Dafny and proves what
they promise, for every run and every input.

How the files fit together:

- `lifecycle.dfy`: the lifecycle value, wake requests, the value that each publishing function stores, the assertions
  of those functions, and the order of phases inside one generation.
- `backend_use.dfy`: the activity tracker.
- `ledger.dfy`: a run of the supervisor as a sequence of events, waiting included: it may sleep only while nothing it
  must react to has happened, and a branch of a `select!` may be taken only if it is ready and none before it is.
  `Lawful` says which event may follow which; the ledger is the bookkeeping that a prefix of a run determines. It is the
  interface between the other files about the supervisor.
- `environment.dfy`: an arbitrary script of what happens outside, of what becomes ready when, and of how every probe,
  poll, connection attempt, launch and wait is answered. A script explains a run if each observation in the run is the
  script's answer there.
- `supervisor.dfy`: the supervisor task in the form of the source, one method a function, over such an environment:
  clients, the clock, shutdown, the child process, probes and RCON replies may do anything at every await. Every
  observation is one method that asks the environment and records the answer, and the shared clock, slot, tracker and
  lifecycle value must always be those of the record: the supervisor can neither invent nor withhold one. A dequeued
  wake must be answered, and a branch that was taken must be handled, before anything else can be done. `Run` ends with
  the proof that its events are lawful and explained by the script. `fuel` bounds how much of a run is observed: each
  unit that is spent stands for an event (`WentOn`), so a cut run is a prefix, as long as one likes, of a longer one.
- `run_theorems.dfy`: what holds of every lawful run.
- `idle_stop.dfy`: any lawful run interleaved, step by step, with any number of clients, the activity tracker and the
  gate. Crash and shutdown leave `Running` without the gate, so sessions of an old cycle outlive it.
- `reconciliation.dfy`, `player_count.dfy`: the meaning of probe results and of the reply to `list`.
- `daemon_journal.dfy`: what happens in a daemon as a sequence of occurrences, the failures for which each is to blame,
  and what holds of every orderly journal.
- `coordinator.dfy`: the daemon coordinator, in the form of the source, over an arbitrary script of how its tasks end.
  Its recorded failures must always be those that its journal blames, and it is cut only while it waits.
- `varint.dfy`, `text.dfy`, `minecraft.dfy`: VarInts, UTF-8 and UTF-16, frames, string packets, the handshake envelope
  and the login start.
- `rcon.dfy`: packets, request ids, authentication and commands of Source RCON.
- `endpoints.dfy`: the endpoint checks of the configuration, against the addresses that listeners and targets mean.
- `wrappers.dfy`: `Option` and `Result`.

Times are nanoseconds of one monotone clock. Generations are 64-bit and wrap: theorems that compare generations ask
for fewer than 2^64 decisions in the run (`Bounded`, `CountDecisions(run) < TWO_64`). Of tokio this is taken for
granted: a read/write lock excludes readers from a writer; a watch channel holds the latest value; the wake channel
holds one request; polling a completed oneshot receiver would panic, and does not happen.

Three results are not what a reader might expect of the code:

- A wake of the current generation can be lost. A client that sampled the first `Reconciling` value may send its wake
  only after the startup probe was concluded; in `Conflict` and in `External` it is then dropped with nothing latched
  (`LateStartupWakesAreLost`, two whole runs). `NoWakeIsLost` has the exact condition: a dequeued wake that observed
  the current generation is dropped if and only if a demand is already latched in `Reconciling` or `Cooldown`, or the
  phase is `External`, or it is `Conflict` and the wake had observed `Reconciling`.
- The wildcard rules of the endpoint check differ: two listeners conflict through a wildcard only within one address
  family, while a numeric target and a wildcard listener conflict across families as well
  (`WildcardRulesDiffer`). `Acceptable` names that case (`CrossFamilyWildcard`), and the check is exact with it.
- RCON request ids repeat after i32::MAX requests, so two requests share an id exactly when a multiple of i32::MAX
  requests lies between them (`IdsCollideAfterFullCycle`); a command and its end marker never do.

## Model

| member | source | states |
|---|---|---|
| `Lifecycle.CallSitesMeetAssertions` | src/supervisor.rs:394-660 | At each place where the run publishes, neither the assertions of the publishing function nor the one in `publish` can fail, and the stored value satisfies `invariant_holds` |
| `Lifecycle.PublishingKeepsOrder` | src/supervisor.rs:394-660 | Every publication keeps the order of phases within a generation: whatever had been current stays before the new value |
| `Lifecycle.CurrentGenerationWakesAreAccepted` | src/supervisor.rs:162-194 | A wake that observed the current generation is accepted in `Stopped`, `Cooldown` and `Stopping`; in `Conflict` if and only if it had observed `Conflict` |
| `Lifecycle.BackoffIsCappedExponential` | src/supervisor.rs:1069-1078 | The delay table is min(60, 5 * 2^(k-1)) seconds for every streak |
| `BackendUse.ActivityTracker.BeginCycle` | src/backend_use.rs:42-49 | The tracker is replaced by an empty one of the new cycle |
| `BackendUse.ActivityTracker.EstablishLoginTransferSession` | src/backend_use.rs:64-88 | Counts a session exactly if the tracker is on the lease's cycle, and changes nothing otherwise |
| `BackendUse.ActivityTracker.DropSession` | src/backend_use.rs:107-127 | A dropped session is uncounted, the last one leaves its time, and sessions of other cycles leave no trace |
| `Ledgers.LawfulRunsKeepFacts` | src/supervisor.rs:394-700 | In every prefix of a lawful run: failure and streak agree, cooldown deadlines are phase start plus backoff, evidence is sticky, phases are ordered, wakes outnumber decisions, a child lives only in owned phases |
| `Ledgers.FactsStep` | src/supervisor.rs:394-700 | Each lawful event keeps all of these |
| `Ledgers.FailureFactsStep` | src/supervisor.rs:418-524 | Each event keeps the agreement of failure, streak, deadline and the count of failures |
| `Ledgers.OrderFactsStep` | src/supervisor.rs:399-660 | Each event keeps all published values before the current one, and the generation equal to the wrapped number of decisions |
| `Ledgers.EvidenceFactsStep` | src/supervisor.rs:587-660 | Each event keeps the invariant of every published value, and positive evidence once published |
| `Ledgers.DeadlineFactsStep` | src/supervisor.rs:662-700 | Until shutdown is seen, each publication keeps every past cooldown expired |
| `Ledgers.DemandFactsStep` | src/supervisor.rs:788-1014 | Each event keeps decisions and pending demand within the wakes accepted |
| `Ledgers.WakeFactsStep` | src/runtime.rs:411-442 | Each event keeps the wake in the slot, and the one in hand, a client's sample of a published value |
| `Ledgers.OriginFactsStep` | src/supervisor.rs:587-660 | Each event keeps: the first reconciliation has nothing before it, and in `External` and `Conflict` nothing else of the generation than reconciliation and these came before |
| `Ledgers.ChildFactsStep` | src/supervisor.rs:1200-1258 | Each event keeps a live child only in `Starting`, `Running`, `Stopping` or straight after a launch |
| `Ledgers.WatchFactsStep` | src/supervisor.rs:1635-1716 | Each event keeps the position inside the monitor in step with phase and child |
| `Ledgers.KeptFacts` | src/supervisor.rs:1096-1198 | A recorded run has a ledger with all facts, and the settings it began with |
| `Supervisor.RunningMonitor.constructor` | src/supervisor.rs:1408-1421 | The monitor starts on the current cycle, without a zero anchor, with the stability deadline one minute after the phase start, pending exactly if there is a streak |
| `Supervisor.SupervisorControl.constructor` | src/supervisor.rs:84-96 | The run opens in `Reconciling` of generation 0 with no evidence and no child |
| `Supervisor.SupervisorControl.Select` | src/supervisor.rs:1741-1779 | A biased select: it reports shutdown if and only if shutdown was requested by then; otherwise a wake, or the first of the other branches that is ready, which the caller then owes its handling; while none is ready it sleeps, and it is cut only there |
| `Supervisor.SupervisorControl.PollFirst` | src/supervisor.rs:365-368 | Shutdown is seen first; the wake channel comes next, or after the probe while one runs; nothing is returned only if none of them is ready |
| `Supervisor.FirstReadyIsLawful` | src/supervisor.rs:1741-1779 | Taking the first ready branch in the order of the code is what the ledger and the script allow, and with none ready sleeping is: nothing is due |
| `Supervisor.SupervisorControl.TryReceiveWake` | src/supervisor.rs:2049-2061 | A wake that waits is taken; the channel is reported empty or closed only if none does |
| `Supervisor.SupervisorControl.TakeWake` | src/supervisor.rs:357-381 | The wake leaves the slot and is owed an answer |
| `Supervisor.SupervisorControl.Answer` | src/supervisor.rs:162-194 | The wake in hand is recorded as accepted exactly if the phase's predicate accepts it |
| `Supervisor.SupervisorControl.ShutdownPending` | src/supervisor.rs:383-388 | True exactly with shutdown or closure recorded as seen; otherwise the running gate or idle stop may go on from here |
| `Supervisor.SupervisorControl.RecordLaunchSuccess` | src/supervisor.rs:399-416 | Publishes `Starting` of the next generation, from `Reconciling` without positive evidence only |
| `Supervisor.SupervisorControl.RecordLaunchFailure` | src/supervisor.rs:418-439 | Publishes `Cooldown` of the next generation with the returned deadline |
| `Supervisor.SupervisorControl.RecordReapedFailure` | src/supervisor.rs:441-465 | Publishes `Cooldown` with the saturated streak and the returned deadline |
| `Supervisor.SupervisorControl.BeginFailureCleanup` | src/supervisor.rs:467-485 | Publishes `Stopping` with the failure and returns the backoff of the new streak |
| `Supervisor.SupervisorControl.FinishFailureCleanup` | src/supervisor.rs:487-506 | Publishes `Cooldown` that ends after the given delay |
| `Supervisor.SupervisorControl.ResetFailureStreak` | src/supervisor.rs:508-524 | Forgets failure and streak in place |
| `Supervisor.SupervisorControl.PublishRunning` | src/supervisor.rs:526-546 | Begins the tracker's cycle, then publishes `Running` since the same instant, and returns the cycle |
| `Supervisor.SupervisorControl.BeginIdleStop` | src/supervisor.rs:548-560 | Publishes `Stopping` without failure or streak, from the running cycle only |
| `Supervisor.SupervisorControl.SetPhase` | src/supervisor.rs:562-585 | Publishes another owned phase and keeps failure and streak |
| `Supervisor.SupervisorControl.BeginReconciliation` | src/supervisor.rs:587-603 | Publishes `Reconciling` and returns the evidence, which it keeps |
| `Supervisor.SupervisorControl.PublishStoppedAfterCleanReconciliation` | src/supervisor.rs:605-617 | Publishes `Stopped` without evidence |
| `Supervisor.SupervisorControl.PublishExternal` | src/supervisor.rs:619-638 | Publishes `External` with positive evidence, in the next generation if it answers a demand |
| `Supervisor.SupervisorControl.PublishConflict` | src/supervisor.rs:640-660 | Publishes `Conflict` with the evidence, in the next generation if it answers a demand |
| `Supervisor.SupervisorControl.WaitForReconciliationDemand` | src/supervisor.rs:357-381 | Ends with exactly one more accepted wake, or because shutdown or closure was seen, and publishes nothing |
| `Supervisor.SupervisorControl.WaitForReconciliation` | src/supervisor.rs:788-831 | A probe that started during this call is completed, with the environment's result; exactly one wake is accepted if a startup demand is reported, and none otherwise; the probe may complete while a wake waits in the slot |
| `Supervisor.SupervisorControl.CompleteProbe` | src/supervisor.rs:759-786 | The result is the environment's, and recorded |
| `Supervisor.SupervisorControl.ReconcileStartup` | src/supervisor.rs:891-946 | Ends in `Stopped` with a launch pending exactly if a wake was latched, in `External` or `Conflict` with the demand answered, or with shutdown seen |
| `Supervisor.SupervisorControl.ReconcileFinalGate` | src/supervisor.rs:948-1014 | A launch is let through only after a clean probe that began after the demand and a check that found no shutdown; otherwise the demand is answered by `External` or `Conflict`; prior positive evidence is never let through |
| `Supervisor.SupervisorControl.PassGate` | src/supervisor.rs:965-1013 | A launch exactly for a clean result without prior positive evidence; `External` exactly for a fully ready one |
| `Supervisor.SupervisorControl.MonitorExternalServer` | src/supervisor.rs:1016-1067 | Polls when a poll is due, as long as everything is found ready; ends in `Conflict` or with shutdown seen; never launches |
| `Supervisor.SupervisorControl.ProbeExternalServer` | src/supervisor.rs:1043-1065 | The backend stays external only if the probe found every endpoint ready, and the next poll is one interval after that; otherwise `Conflict` is published |
| `Supervisor.SupervisorControl.WaitForCooldown` | src/supervisor.rs:662-700 | A launch or `Stopped` only at or after the deadline, a launch exactly with a latched retry, and `Stopped` on shutdown |
| `Supervisor.SupervisorControl.LatchRetry` | src/supervisor.rs:688-696 | A retry is latched exactly if one was, or if the wake asks for it |
| `Supervisor.SupervisorControl.LatchRestart` | src/supervisor.rs:2023-2032 | A restart is latched exactly if one was, or if the wake observed this stop |
| `Supervisor.SupervisorControl.ReapedFailure` | src/supervisor.rs:1897-1909 | The cycle ends in `Cooldown` with the published deadline |
| `Supervisor.SupervisorControl.StopAndReap` | src/supervisor.rs:2070-2130 | Success means that the child was reaped, failure that its handle has failed |
| `Supervisor.SupervisorControl.TerminateAndReap` | src/supervisor.rs:2115-2130 | Succeeds exactly if termination succeeds and the child then exits in time with a status |
| `Supervisor.SupervisorControl.ReapAfterWaitError` | src/supervisor.rs:1924-1936 | Always an error, with the child's handle failed, in `Stopping` or `Stopped`, and in `Stopped` only with the child reaped |
| `Supervisor.SupervisorControl.StopForShutdown` | src/supervisor.rs:1938-1946 | Ends in `Stopping` without a child, or as an error |
| `Supervisor.SupervisorControl.StopFailedServer` | src/supervisor.rs:1948-1957 | The failed server's cleanup ends the cycle as `finish_failed_cleanup` does |
| `Supervisor.SupervisorControl.FinishFailedCleanup` | src/supervisor.rs:1959-2003 | Ends in `Cooldown` without a child, with a retry reported exactly if a wake was latched, or with shutdown seen and no child, or as an error |
| `Supervisor.SupervisorControl.StopCommittedIdleServer` | src/supervisor.rs:2005-2068 | Ends without a child; a restart is reported exactly if a wake that observed this stop was accepted |
| `Supervisor.SupervisorControl.WaitForReadiness` | src/supervisor.rs:1260-1355 | Ready exactly if a connection attempt succeeded; no attempt begins after the startup deadline, and a timeout is reported only after it; the child's exit exactly if it was reaped; shutdown exactly if it was seen; publishes nothing |
| `Supervisor.SupervisorControl.AwaitAttempt` | src/supervisor.rs:1284-1333 | One attempt ends in success, in failure or at the deadline, each followed by a pause, or in a wake that is ignored without one; shutdown and the child's exit end the wait |
| `Supervisor.SupervisorControl.PauseBeforeRetry` | src/supervisor.rs:1335-1353 | A pause ends at the retry interval or at the startup deadline, whichever is earlier, or with a wake that is ignored |
| `Supervisor.SupervisorControl.TryConnect` | src/supervisor.rs:1284-1302 | The outcome is the environment's, and recorded |
| `Supervisor.SupervisorControl.CompleteStabilityWindow` | src/supervisor.rs:1442-1458 | With the child alive after the full minute exactly failure and streak are forgotten; otherwise nothing changes |
| `Supervisor.SupervisorControl.AcquireIdleExclusive` | src/supervisor.rs:1460-1510 | The write side of the gate is held exactly on `Acquired`, for the expected anchor; activity is reported as changed only after a reading of the tracker that gave another anchor |
| `Supervisor.SupervisorControl.QueueTurn` | src/supervisor.rs:1471-1509 | One turn in the queue ends with the gate, with a changed anchor, with shutdown or the child's end, or leaves the stop due |
| `Supervisor.SupervisorControl.ReadAnchor` | src/supervisor.rs:1725-1729 | The anchor is the one that tracker and polls give at that moment; from an expired one on the stop is due |
| `Supervisor.SupervisorControl.FinalRconPlayerCheck` | src/supervisor.rs:1512-1584 | Confirmed exactly if the environment's reply to the last poll parses as zero; any other reply or none is a veto, and the client is kept exactly if it replied |
| `Supervisor.SupervisorControl.AskPlayers` | src/supervisor.rs:1857-1894 | The reply is the environment's, is recorded, and moves the zero anchor as the source does |
| `Supervisor.SupervisorControl.ConfirmIdlePlayerState` | src/supervisor.rs:1586-1633 | Without RCON always confirmed; a configured RCON without a client vetoes and forgets the stretch of zero players; with one, confirmation means that the last event is a final check answered by zero |
| `Supervisor.SupervisorControl.ActivitySnapshot` | src/backend_use.rs:51-58 | The snapshot is the tracker's state, which is the one that the record gives |
| `Supervisor.SupervisorControl.RecheckUnderExclusive` | src/supervisor.rs:1653-1662 | Goes on exactly if the tracker, read under the guard, is on this cycle without a live session and the expired anchor is unchanged |
| `Supervisor.SupervisorControl.CommitUnderExclusive` | src/supervisor.rs:1653-1702 | Under the guard, `Stopping` is published exactly on `Commit`, without failure or streak; the cycle goes on only if the recheck failed or, with RCON, players could not be ruled out |
| `Supervisor.SupervisorControl.CommitUnlessPlayed` | src/supervisor.rs:1676-1702 | The last part of the same, from the player check on |
| `Supervisor.SupervisorControl.CommitConfirmed` | src/supervisor.rs:1685-1702 | The last checks before publication, and the publication |
| `Supervisor.SupervisorControl.AttemptExpiredIdleStop` | src/supervisor.rs:1635-1716 | The guard is released on every path, and nothing but a committed stop leaves `Running` |
| `Supervisor.SupervisorControl.AdvanceRunningMonitor` | src/supervisor.rs:1718-1779 | One turn reads the tracker and ends in one of the situations that the loop handles: `Continue` only with no stop due, that is, after an expired anchor only once a reason not to stop stands in the run |
| `Supervisor.SupervisorControl.AwaitTurn` | src/supervisor.rs:1734-1779 | The wait of a turn is entered only without an expired anchor, with the stability window, the next poll and the end of the idle period as its timers |
| `Supervisor.SupervisorControl.AwaitWhileMonitoring` | src/supervisor.rs:1741-1761 | The branches that all waits of the monitor share: shutdown, a wake to ignore, the child's end, the stability window |
| `Supervisor.SupervisorControl.PollPlayerPresence` | src/supervisor.rs:1817-1895 | With a client the last event is its poll, and client, next poll and zero anchor follow from the reply; without one the anchor is forgotten and one reconnection tried |
| `Supervisor.SupervisorControl.MonitorRunningServer` | src/supervisor.rs:1781-1815 | Every way out ends the cycle as `run` expects |
| `Supervisor.SupervisorControl.RunServerCycle` | src/supervisor.rs:1200-1258 | Every path that returns without an error has reaped the child, and the phase, failure and pending demand agree with the outcome |
| `Supervisor.SupervisorControl.RunTurn` | src/supervisor.rs:1113-1196 | Between turns nothing is owned, and a launch is pending exactly if an accepted wake is unanswered |
| `Supervisor.SupervisorControl.AwaitLaunchDemand` | src/supervisor.rs:1119-1133 | Goes on only with a wake accepted and not in `External`; a shutdown seen in `Stopped` ends with `Stopped` published once more |
| `Supervisor.SupervisorControl.LaunchAndSupervise` | src/supervisor.rs:1143-1196 | A launch, its cycle and its cooldown end in that situation, or the run ends |
| `Supervisor.SupervisorControl.Run` | src/supervisor.rs:1096-1198 | Every run is lawful and explained by the script, and its ledger is the replay of its events; it finishes only with shutdown seen and no child left, and ends in an error only after the child's handle has failed, in `Stopping` or `Stopped`; it is cut only when the fuel is spent, an event for each unit |
| `RunTheorems.PublicationsNeverFail` | src/supervisor.rs:394-660 | In every run, no publication fails an assertion of its function or publishes an invalid value |
| `RunTheorems.PositiveEvidenceSticks` | src/supervisor.rs:587-660 | Once a published state has positive evidence, all later ones do, their phase is `Reconciling`, `External` or `Conflict`, and nothing is launched any more |
| `RunTheorems.ShutdownIsAbsorbing` | src/supervisor.rs:383-388 | After shutdown was observed it is never polled or checked again, nothing is accepted, probed or launched, and only the owned child is cleaned up |
| `RunTheorems.ShutdownComesFirst` | src/supervisor.rs:365-368 | From the request on the supervisor never sleeps, takes no other branch of any `select!` and no wake but those drained from a stopped child's channel, and passes no check for shutdown |
| `RunTheorems.SleepsOnlyWithNothingDue` | src/supervisor.rs:1741-1779 | It sleeps only while shutdown is not requested, no wake it listens for is there, and no idle period, stable minute, startup deadline, cooldown or poll is due |
| `RunTheorems.TakenBranchesAreHandled` | src/supervisor.rs:1741-1779 | After a branch is taken, the supervisor's next event is what that branch is for; a stable minute with the child alive ends in the reset of the streak |
| `RunTheorems.ExpiredIdleIsPursued` | src/supervisor.rs:1635-1716 | Once an expired anchor has been read, the stop stays under way until it is committed or a reason against it stands in the run: another anchor, players or no answer under RCON, shutdown, or the child's end |
| `RunTheorems.PursuitWaits` | src/supervisor.rs:1460-1584 | While it is under way the supervisor waits only for the gate and for the final player check |
| `RunTheorems.IdleServersAreNotSleptOn` | src/supervisor.rs:1727-1732 | When nobody has played for the whole idle timeout, the monitor neither waits nor sleeps before it has read the expired anchor, and that reading makes the stop due |
| `RunTheorems.DemandsAreNotSleptOn` | src/supervisor.rs:1096-1198 | An accepted wake is never slept on before it is decided, but for the probe of its launch, the end of the child it restarts, or the cooldown before its retry |
| `RunTheorems.ExternalBackendsAreReady` | src/supervisor.rs:1016-1067 | While an external backend is proxied, its last probe found every endpoint ready |
| `RunTheorems.EveryLaunchIsJustified` | src/supervisor.rs:948-1014 | Each launch follows an accepted wake of the generation it answers, then one probe that started after it and completed clean, then a check that found no shutdown, with nothing in between, no child left and every cooldown over |
| `RunTheorems.ChildrenAreConserved` | src/supervisor.rs:1200-1258 | Launched children are the reaped ones plus the live one |
| `RunTheorems.LaunchesFindNoChild` | src/supervisor.rs:1140-1196 | At each launch all earlier children have been reaped |
| `RunTheorems.DecisionsAreDemanded` | src/supervisor.rs:399-439 | Decisions (launch attempts and blocked gates) never outnumber accepted wakes, nor these the wakes that clients sent |
| `RunTheorems.EveryDecisionAnswersAWake` | src/supervisor.rs:619-660 | Each decision answers a wake of its own generation accepted since the decision before |
| `RunTheorems.GenerationsAreDecidedOnce` | src/supervisor.rs:399-439 | No generation gets two decisions |
| `RunTheorems.NoWakeIsLost` | src/supervisor.rs:357-381 | A dequeued wake of the current generation is dropped if and only if one is latched already in `Reconciling` or `Cooldown`, or in `External`, or in `Conflict` if it had observed `Reconciling` |
| `RunTheorems.StaleWakesAreDropped` | src/supervisor.rs:162-194 | A wake that observed another generation is always dropped |
| `RunTheorems.LateStartupWakesAreLost` | src/supervisor.rs:174-176 | Two lawful runs in which a startup wake of the current generation is dropped with nothing latched: in `Conflict` and in `External` |
| `RunTheorems.WakesAreConserved` | src/runtime.rs:424-441 | Every wake sent has been answered, is in the slot, or is in hand |
| `RunTheorems.DequeuedWakesAreAnswered` | src/supervisor.rs:357-381 | After a wake is dequeued, the supervisor's next event answers that wake |
| `RunTheorems.AnsweredWakesWereSent` | src/runtime.rs:424-441 | Each accepted or ignored wake was sent by a client and dequeued, and carries a published value in a phase that makes clients send |
| `RunTheorems.RunningIsReached` | src/supervisor.rs:1220-1256 | `Running` is published only over a live child that a connection attempt has reached since it was started |
| `RunTheorems.TroubleIsSeen` | src/supervisor.rs:2070-2130 | The trouble with which a run may end is a failed wait or termination, or an overdue stop, in its events |
| `RunTheorems.StreakCountsFailures` | src/supervisor.rs:418-524 | The streak is the saturated number of failures since the last reset, positive exactly with a failure; a cooldown ends its phase start plus backoff |
| `RunTheorems.FailuresAreCounted` | src/supervisor.rs:418-524 | The ledger's count is the number of failures published since the last reset |
| `RunTheorems.ResetsAreEarned` | src/supervisor.rs:1442-1458 | The streak is forgotten only by a committed idle stop or after 60 seconds of running with the child alive |
| `RunTheorems.RunsRemember` | src/supervisor.rs:948-1014 | The ledger's positions point at the events they name |
| `IdleStop.RunsKeepInv` | src/runtime.rs:460-529 | The invariant of clients, gate, tracker, permits and history holds in every reachable state |
| `IdleStop.InvKept` | src/runtime.rs:460-529 | Every step of any client or of the supervisor keeps it |
| `IdleStop.SupervisorRunsAreLawful` | src/supervisor.rs:1096-1198 | The supervisor's part of an interleaving, with what it sees of the clients, is a lawful run |
| `IdleStop.CommitIsExclusive` | src/supervisor.rs:1635-1716 | When an idle stop is committed no client holds a lease: none is connecting, replaying or in a counted session, of any cycle |
| `IdleStop.NothingStartsAfterCommit` | src/runtime.rs:460-529 | Afterwards no client starts a replay or is counted for that cycle |
| `IdleStop.CommitRetires` | src/runtime.rs:561-574 | After a commit every client of the cycle can only be refused, for the rest of the run |
| `IdleStop.IdleWindow` | src/supervisor.rs:1423-1432 | At a commit no counted session of the cycle was live at any instant of the idle timeout before it; with RCON a poll at least that long ago counted zero, and so did every poll since and the final one under the guard |
| `IdleStop.CountIsConserved` | src/backend_use.rs:64-127 | The tracked count is the number of live sessions of the tracked cycle, while sessions of old cycles live on |
| `IdleStop.DropsNeverUnderflow` | src/backend_use.rs:107-127 | `checked_sub` succeeds at every drop |
| `IdleStop.PermitsBoundSessions` | src/runtime.rs:168-188 | At every establishment the count is below the number of permits, and that below the machine word, so `checked_add` succeeds |
| `IdleStop.NewCycleIsUnused` | src/supervisor.rs:526-546 | The generation being started has never run, so no client belongs to it |
| `IdleStop.ClientsKeepRecheck` | src/supervisor.rs:1653-1702 | No client can disturb an idle period rechecked under the guard |
| `IdleStop.ChecksAreExact` | src/runtime.rs:561-574 | A client's check lets it go on exactly while the supervisor runs the cycle that it sampled |
| `IdleStop.EachStageIsChecked` | src/runtime.rs:460-529 | A client connects, replays its handshake or becomes a session only right after a check of its own that had found that cycle running |
| `IdleStop.SessionsAreCounted` | src/backend_use.rs:64-127 | A session is counted exactly if the tracker is on its cycle, one more at its start and one less at its end, and the last one leaves its time |
| `PlayerCount.FirstOccurrence` | src/supervisor.rs:2150-2166 | `split_once`: the first occurrence, if there is one |
| `PlayerCount.CountsExactlyServerReplies` | src/supervisor.rs:2150-2166 | A count is reported exactly for replies "There are N of a max of M players online:..." where N is that count in decimal, after at most one plus sign and any zeros, and N and M are below 2^32 |
| `PlayerCount.ParsesExactlyDecimals` | src/supervisor.rs:2161-2165 | Text is parsed as n exactly if it writes n in decimal, after at most one plus sign and any zeros, and n is below 2^32 |
| `PlayerCount.ZeroIsExact` | src/supervisor.rs:2168-2180 | Zero players are counted exactly for replies that write zero; never for no reply, another number or another text |
| `PlayerCount.SplitsAfterNumber` | src/supervisor.rs:2150-2166 | A number cannot hide an earlier separator |
| `Reconciliation.ClassificationMeaning` | src/supervisor.rs:293-320 | Clean means that everything refused; ready that everything accepted; positive any other sign of life; inconclusive the rest |
| `DaemonJournals.FailuresAreExact` | src/coordinator.rs:81-99 | Each failure is recorded exactly as often as something in the journal is to blame for it: early, failed or panicked runtimes, panicked monitors, the listener's failure, unexplained ends of the watcher |
| `DaemonJournals.CleanMeansBlameless` | src/coordinator.rs:81-99 | Nothing is recorded if and only if nothing is to blame |
| `DaemonJournals.CompleteDaemonsJoinAll` | src/coordinator.rs:430-521 | In a complete daemon each task is started, ends and is joined equally often, at most once |
| `DaemonJournals.CleanDaemons` | src/coordinator.rs:385-428 | In a complete daemon that recorded nothing no monitor panicked, every runtime ended without error and only after a signal had requested shutdown, and the watcher was joined after such a signal or cancelled |
| `DaemonJournals.ActivationsAreChecked` | src/coordinator.rs:446-467 | Before each activation everything that had ended was joined, and then a check of its own found that shutdown was not requested |
| `DaemonJournals.OccurrencesNameTheirServer` | src/coordinator.rs:346-427 | Whatever happens to the k-th task is put down to the k-th activated server, so that each failure names its own server |
| `DaemonJournals.TasksKeepTheirServer` | src/coordinator.rs:346-427 | The context kept for each task is that of the server it was started for |
| `DaemonJournals.DutifulWatchersExplainThemselves` | src/coordinator.rs:123-228 | A watcher that does its duty before it ends, as the source's does, never causes the two failures for unexplained ends |
| `Coordinator.FatalErrors.Record` | src/coordinator.rs:31-38 | Appends one failure |
| `Coordinator.FatalErrors.Finish` | src/coordinator.rs:40-55 | Reports all recorded failures, the first as primary, and none if none was recorded |
| `Coordinator.Daemon.Fail` | src/coordinator.rs:81-88 | Records the failure and requests shutdown |
| `Coordinator.Daemon.EndRuntime` | src/coordinator.rs:396-425 | The verdict on a runtime that ended is recorded: the record stays what the journal blames |
| `Coordinator.Daemon.EndWatcher` | src/coordinator.rs:167-228 | After a signal shutdown is requested; a failed listener is recorded and reported |
| `Coordinator.Daemon.DrainInfrastructure` | src/coordinator.rs:304-315 | Receives every watcher report, and notices the channel's end |
| `Coordinator.Daemon.ObserveWatcher` | src/coordinator.rs:317-344 | The watcher's handle is completed once; a crash, a requested shutdown that is not pending and an unreported failure each add their failure, and nothing else does |
| `Coordinator.Daemon.ObserveRuntime` | src/coordinator.rs:346-364 | One runtime leaves with its context; exactly a panicked monitor adds a failure, with that context |
| `Coordinator.Daemon.ObservePendingEvents` | src/coordinator.rs:367-383 | Everything that has ended is joined; activates nothing, and shutdown stays requested |
| `Coordinator.Daemon.SpawnRuntime` | src/coordinator.rs:385-427 | One more task with that server's context, only after a check that allowed it |
| `Coordinator.Daemon.Activate` | src/coordinator.rs:446-467 | The activated servers are, in their order, a prefix of the bound ones, and all of them unless shutdown was requested |
| `Coordinator.Daemon.JoinAll` | src/coordinator.rs:479-500 | Returns with every runtime joined; it is cut only while it waits and nothing has ended |
| `Coordinator.Daemon.AwaitAny` | src/coordinator.rs:480-499 | Each turn receives a report, notices the channel's end, joins the watcher or a runtime, or waits because nothing has ended |
| `Coordinator.Daemon.JoinWatcher` | src/coordinator.rs:502-519 | The watcher has been joined when it returns |
| `Coordinator.Daemon.ActivateAndRun` | src/coordinator.rs:430-521 | The bound servers are activated once each, in their order, all of them unless shutdown was requested; the journal is orderly and explained by the script; when it returns the daemon is complete, no context is left, and the result is the report of exactly the failures that the journal blames, the first as primary |
| `Coordinator.ReportIsLossless` | src/coordinator.rs:40-55 | The result determines the recorded failures |
| `VarInt.WriteVarint` | src/minecraft.rs:544-557 | Appends the encoding, for every i32 |
| `VarInt.ReadVarint` | src/minecraft.rs:692-705 | The loop computes `DecodeVarint` |
| `VarInt.DecodesExactlyVarints` | src/minecraft.rs:692-705 | Decoding succeeds exactly on inputs that start with at most five bytes of VarInt, minimal or not, consumes exactly them, and gives their value |
| `VarInt.DecodesPrefix` | src/minecraft.rs:692-705 | What follows a VarInt does not matter |
| `VarInt.VarintRoundTrip` | src/minecraft.rs:544-568 | Decoding what is written, with any suffix, gives the number back and uses `varint_size` bytes |
| `VarInt.EncodingIsMinimal` | src/minecraft.rs:544-568 | No VarInt of the same number is shorter |
| `VarInt.BitsOfByte` | src/minecraft.rs:544-557 | The masks of the source are the remainders and bounds of the model |
| `VarInt.BitsAccumulate` | src/minecraft.rs:692-705 | Or-ing a shifted group adds it |
| `VarInt.BitsShiftIn` | src/minecraft.rs:692-705 | Shifting a group multiplies it by the weight of its place |
| `VarInt.BitsShiftOut` | src/minecraft.rs:544-557 | Shifting right by seven divides by 128 |
| `Text.TextRoundTrip` | src/minecraft.rs:617-636 | Decoding the UTF-8 of any text gives it back |
| `Text.ValidUtf8Meaning` | src/minecraft.rs:617-636 | Bytes are accepted exactly if they are the encoding of a text, which is unique |
| `Text.DecodedTextIsEncoded` | src/minecraft.rs:126-130 | Accepted bytes are the encoding of what they decode to |
| `Text.EncodingIsExact` | src/minecraft.rs:617-636 | The one to four bytes of a scalar value, by their marks and bits (section 3 of RFC 3629) |
| `Text.Utf16UnitsAreCounted` | src/minecraft.rs:515-525 | The count of UTF-16 units is the length of the text in UTF-16 |
| `Text.Utf16IsFaithful` | src/minecraft.rs:515-525 | No two texts have the same UTF-16 |
| `Text.Utf8IsAtMostThreeTimesUtf16` | src/minecraft.rs:515-525 | UTF-8 bytes are at most three times the UTF-16 units |
| `Minecraft.FramesReadBack` | src/minecraft.rs:473-542 | Every frame within the limits is read back, whatever follows |
| `Minecraft.FramesAreExact` | src/minecraft.rs:473-513 | A frame is exactly a VarInt of at most three bytes, minimal or not, and as many bytes as it says, within the limit |
| `Minecraft.ShortVarints` | src/minecraft.rs:481-513 | A length of at most three bytes is the one `decode_varint` gives |
| `Minecraft.LongVarints` | src/minecraft.rs:481-513 | A length not finished in three bytes is no frame's |
| `Minecraft.ReadPacket` | src/minecraft.rs:473-479 | Reads exactly the frame at the start of the stream, or fails |
| `Minecraft.ReadPacketAfterFirstByte` | src/minecraft.rs:481-513 | The streaming reader agrees with `decode_varint` on all lengths of at most three bytes, and rejects the rest |
| `Minecraft.EncodePacket` | src/minecraft.rs:527-542 | Fails exactly when id and payload exceed 2^21-1 bytes |
| `Minecraft.StringsFit` | src/minecraft.rs:515-525 | A text within the UTF-16 limit fits in a frame with any packet id |
| `Minecraft.EncodeStringPacket` | src/minecraft.rs:515-525 | Succeeds if and only if the text has at most 32767 UTF-16 units |
| `Minecraft.StringReadsBack` | src/minecraft.rs:613-636 | A string, with anything around it, reads back exactly if it is within the limit of the reader |
| `Minecraft.StringPacketRoundTrip` | src/minecraft.rs:515-542 | An encoded string packet reads back as the same id and text with nothing left over |
| `Minecraft.PacketCursor.ReadVarint` | src/minecraft.rs:607-611 | Advances by the VarInt at the cursor |
| `Minecraft.PacketCursor.ReadString` | src/minecraft.rs:613-636 | Advances by the string at the cursor |
| `Minecraft.PacketCursor.ReadUtf8StringRange` | src/minecraft.rs:638-646 | Gives the range of valid UTF-8 at the cursor |
| `Minecraft.PacketCursor.ReadU16` | src/minecraft.rs:648-650 | Reads two bytes, the more significant one first |
| `Minecraft.PacketCursor.ReadBool` | src/minecraft.rs:652-658 | Reads one byte that must be 0 or 1 |
| `Minecraft.PacketCursor.ReadBytes` | src/minecraft.rs:671-680 | Advances by that many bytes, or fails |
| `Minecraft.PacketCursor.EnsureFinished` | src/minecraft.rs:686-689 | Whether nothing is left |
| `Minecraft.ParseHandshake` | src/minecraft.rs:442-461 | The cursor computes `ParsedHandshake` |
| `Minecraft.HandshakesAreTheirFields` | src/minecraft.rs:442-461 | A packet parses as a handshake if and only if it is the concatenation of that handshake's fields, non-minimal VarInts included: id 0, version, address, big-endian port, and 1 for status, 2 for login, 3 for transfer or any other intent |
| `Minecraft.IntentIsExact` | src/minecraft.rs:448-453 | The intent is status for 1, login for 2, transfer for 3, and unknown with its number for any other |
| `Minecraft.PortIsExact` | src/minecraft.rs:648-650 | The port is its bytes in the base 256 |
| `Minecraft.JoinedFieldsParse` | src/minecraft.rs:442-461 | Every concatenation of fields parses |
| `Minecraft.ParsedFieldsJoin` | src/minecraft.rs:442-461 | Every parsed packet is such a concatenation |
| `Minecraft.ParseLoginStart` | src/minecraft.rs:411-433 | The cursor computes `LoginStart` |
| `Minecraft.LoginStartsAreTheirFields` | src/minecraft.rs:411-433 | A packet is a login start if and only if it is the concatenation of its fields, non-minimal VarInts included: id 0, a username of 1 to 16 UTF-16 units and the identity of the version |
| `Minecraft.LoginStartsAreAccepted` | src/minecraft.rs:411-433 | For packets as clients write them: accepted exactly for such usernames and identities |
| `Minecraft.ConnectionEnvelope.RequestedAddress` | src/minecraft.rs:126-130 | Never fails, and gives the text whose bytes the client sent |
| `Minecraft.ParsedAddressIsText` | src/minecraft.rs:638-646 | The address range of a parsed handshake is valid UTF-8 |
| `Minecraft.ReadEnvelope` | src/minecraft.rs:58-103 | Accepts exactly a frame of at most 1024 bytes that holds a handshake; the kept bytes are exactly those consumed, so that replay and remaining stream give the client's byte stream |
| `Minecraft.ReadHandshakeBody` | src/minecraft.rs:76-99 | The same once the length is known; the shifted range covers the same bytes |
| `Rcon.EncodePacket` | src/rcon.rs:237-250 | Fails exactly when the length does not fit 32 bits, and otherwise gives the packet on the wire |
| `Rcon.WordRoundTrip` | src/rcon.rs:237-265 | Little-endian words read back |
| `Rcon.WordIsItsBytes` | src/rcon.rs:252-265 | Four bytes are the encoding of the word they hold |
| `Rcon.WordMeaning` | src/rcon.rs:237-265 | The first byte is the least significant one, and negative numbers are their two's complement |
| `Rcon.PayloadRoundTrip` | src/rcon.rs:252-265 | `decode_payload` accepts exactly the payloads of packets, and inverts `encode_packet` for every id, kind and body |
| `Rcon.PacketsReadBack` | src/rcon.rs:136-158 | A stream starts with a readable packet exactly if it starts with that packet's bytes, within 4 MiB |
| `Rcon.IdsCycle` | src/rcon.rs:124-126 | Request ids count through 1..i32::MAX for ever |
| `Rcon.IdsCollideAfterFullCycle` | src/rcon.rs:124-126 | They are never -1, neighbours differ, and two are equal exactly when a multiple of i32::MAX lies between |
| `Rcon.GrantsAreExact` | src/rcon.rs:73-86 | Authentication succeeds exactly on streams that begin with other packets and then a response with the request's id |
| `Rcon.AnswersAreExact` | src/rcon.rs:100-115 | A command returns exactly the concatenated bodies before the end marker, within 1 MiB, when the stream begins with such an answer |
| `Rcon.AnswersAreRead` | src/rcon.rs:100-115 | Every answer within the limit is read |
| `Rcon.ReadAnswersAreAnswers` | src/rcon.rs:100-115 | Whatever is read is such an answer |
| `Rcon.RconClient.constructor` | src/rcon.rs:67-70 | Ids start at 1 |
| `Rcon.RconClient.SendPacket` | src/rcon.rs:124-134 | Sends one packet with the next id; the id is used up even if the write fails |
| `Rcon.RconClient.ReadPacket` | src/rcon.rs:136-158 | Reads exactly the packet at the start of the stream |
| `Rcon.RconClient.Authenticate` | src/rcon.rs:62-89 | A client is returned if and only if the password has at most 1413 bytes and no NUL, the request (kind 3) was written in full and the stream grants it; the stream is then just after the grant |
| `Rcon.RconClient.AwaitGrant` | src/rcon.rs:73-86 | The loop computes `Granted` |
| `Rcon.RconClient.Command` | src/rcon.rs:92-116 | Returns a text if and only if the command has at most 1413 bytes and no NUL, both packets (kind 2) were sent and the stream begins with an answer in UTF-8, which is the text; an invalid command sends nothing |
| `Rcon.RconClient.CollectAnswer` | src/rcon.rs:100-115 | The loop computes `Answer` |
| `Endpoints.CanonicalMeansSameNode` | src/config.rs:575-582 | Canonical addresses are equal exactly if the addresses are the same node of the IPv6 space (section 2.5.5.2 of RFC 4291) |
| `Endpoints.ValidateHostname` | src/config.rs:584-607 | Accepts exactly the dot-joined sequences of portable labels of at most 253 characters |
| `Endpoints.HostnamesAreAccepted` | src/config.rs:584-607 | The label checks mean exactly that |
| `Endpoints.SplitJoins` | src/config.rs:589-589 | Joining what `split` gives is the host |
| `Endpoints.JoinSplits` | src/config.rs:589-589 | Splitting joined dot-free labels gives them back |
| `Endpoints.ValidateListener` | src/config.rs:540-551 | Accepts exactly an unbracketed address literal with a port other than zero, and gives its canonical form |
| `Endpoints.ValidateTarget` | src/config.rs:553-573 | Accepts exactly ASCII hosts without white space or brackets, with a port other than zero, that are the number of a single node, mapped or not, or a portable hostname; gives the node or the name in lower case |
| `Endpoints.ValidateLabel` | src/config.rs:589-605 | Accepts exactly 1 to 63 letters, digits and hyphens without a hyphen at either end |
| `Endpoints.ValidateEnvironmentName` | src/config.rs:422-432 | Accepts exactly `[A-Za-z_][A-Za-z0-9_]*` |
| `Endpoints.TargetsAreConfigured` | src/config.rs:610-640 | Every collected target is a configured backend or RCON endpoint |
| `Endpoints.ConfiguredAreTargets` | src/config.rs:610-640 | Every configured backend and RCON endpoint is collected, once |
| `Endpoints.UsableMeansNode` | src/config.rs:563-569 | The unspecified and multicast rejections as sets of nodes, mapped addresses included |
| `Endpoints.ListenerConflictsOverlap` | src/config.rs:644-649 | Two listeners conflict exactly if some address and port belong to both |
| `Endpoints.TargetConflictsAreAlwaysSame` | src/config.rs:660-672 | Two targets conflict exactly if they lead to the same place under every resolution of names |
| `Endpoints.ConfiguredTargetsConflict` | src/config.rs:553-582 | As configured: same port, and the same node by number or the same name up to case |
| `Endpoints.TargetMeetingsReach` | src/config.rs:673-684 | A target and a listener conflict exactly if some resolution leads the target to the listener, or through the wildcard of the other family |
| `Endpoints.WildcardRulesDiffer` | src/config.rs:642-684 | The wildcard rules of the two comparisons are not the same |
| `Endpoints.CollectEndpoints` | src/config.rs:610-640 | Collects the canonical endpoints exactly if every field is valid |
| `Endpoints.ListenersAreApart` | src/config.rs:642-659 | The nested loops find any overlap |
| `Endpoints.TargetsDiffer` | src/config.rs:660-672 | The nested loops find any two targets that are always the same |
| `Endpoints.TargetsMissListeners` | src/config.rs:673-694 | The nested loops find any target that may reach a listener |
| `Endpoints.ValidateEndpoints` | src/config.rs:609-696 | Accepts exactly the configurations with valid fields in which no two listeners overlap, no two of all backends and RCON endpoints are always the same and none of them may reach a listener |

## Left out

- Sockets, TCP connects, bidirectional copying, real timers, process control and console writes: their outcomes are
  nondeterministic (connected, refused or inconclusive; exited, alive or failed to wait; written or not).
- Scheduler fairness and liveness: that a queued writer is served, or that a wait ends under a flood of wakes. The gate
  is modelled by exclusion only, which allows more interleavings than a fair lock.
- Supervisor.SupervisorControl.Select: a task that sleeps is polled again after every burst of the script, so that it
  wakes up no later than the burst after something became ready; how long a real scheduler takes is not modelled.
- Between two awaits the supervisor is interrupted only where it reads shared state; the count of a session and its
  notification are one step.
- An overall bound on the time that a shutdown takes: a player poll in progress does not watch shutdown.
- Supervisor.SupervisorControl.WaitForReadiness: an attempt's own timeout before the startup deadline counts as a failed
  attempt of the script.
- Supervisor.SupervisorControl.StopAndReap: does not model the time budgets inside stopping and reaping, because they
  bound I/O; it stands for the completion of the stop, and the waits for shutdown and wakes during it come before it.
- Supervisor.SupervisorControl.FinishFailedCleanup: models the stop that its one caller passes to it, not any future.
- RunTheorems.NoWakeIsLost: holds for fewer than 2^64 decisions, like every theorem that compares generations, because
  the counter of the code wraps.
- The accept loop of `run_until` and the retry loop of `connect_backend`: only the permit that a client holds is kept.
- External and sleeping connections after their handshake: status service, disconnect texts, the ping exchange.
- The version catalogue, JSON texts, icons, TOML decoding, path resolution, logging, the command line and signals.
- Error texts: only which failure is primary and which are attached is kept. `BoundDaemon` construction is left out.
- The text form of IP addresses: the parser of Rust's standard library is the parameter `parse`.
- Timeouts of packet reads, and the classification of an RCON probe by the moment at which it failed.
- RCON's password handling beyond `validate_body`: a secret also must not be empty.
