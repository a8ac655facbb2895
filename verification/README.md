# Verified model of the shutdown protocol

A Dafny 4.11 model of the outage handling of `nut-server`: the master that polls a UPS and
shuts nodes down, the slaves that execute, enrolment of slaves, the state files on both sides,
and the reader for upsd's `LIST VAR` reply. `dafny verify dfyconfig.toml` checks everything.

## How it is built

**Steps.** Every critical section of a lock is one atomic step. What a goroutine does after it
unlocks (sends, starting the local shutdown, its return, file writes) is pending work that any
other step may overtake. The poller, the master's watcher and the slave's connection loop have a
program counter: each does its sections in order, and the watcher does nothing else while a start
it decided, or the runner it called, is pending. A run is any sequence of enabled events, crashes
and restarts included. The theorems are about every run and every reachable state, or about every
state with the invariant, which every reachable state has (`MasterRuns.ReachableInv`,
`SlaveRuns.ReachableInv`).

**Functions and objects.** `MasterState`, `Slave` and `Enrollment` hold the sections as functions
on values. The classes `MasterServer.Server`, `SlaveClient.Client`, `EnrollmentDesk.TokenDesk`,
`EnrollmentDesk.Registry` and `Persist.StateFile` perform the same sections in place, with the
loops of the source, and each method is proved equal to its function. The invariants and theorems
are proved about the functions.

| file | content |
|---|---|
| `Types`, `Sets`, `Retention`, `Policy` | statuses, targets, eviction of old entries, policy targets |
| `MasterState`, `MasterServer` | the master's critical sections, as functions and in place |
| `MasterInvariant`, `MasterFrame` | what each section keeps, and which part of the state it leaves alone |
| `Debounce` | the policy timers against the history of readings |
| `Persist` | the off-lock state file scheme of both sides |
| `MasterWorld`, `MasterRuns`, `Trace` | the master as a whole, its invariant, runs one after another |
| `MasterTheorems`, `MasterOutages`, `MasterLinePower` | its guarantees: commands and the local shutdown, policies over an outage, line power |
| `MasterDuties`, `MasterTicks`, `MasterSilence`, `MasterOrigins`, `MasterSaving` | what each critical section must do, both ways, in terms of nodes, reports, requests, polls and times |
| `MasterRestarts`, `MasterEndings` | what crashes leave of a command, and of the end of an outage |
| `MasterWitness` | concrete runs of the master, from its first start, on which a plausible guarantee fails |
| `Slave`, `SlaveClient`, `SlaveRuns` | one slave: machine, object, guarantees |
| `SlaveDuties` | what a slave must do with a command, over every interleaving |
| `SlaveReexecution`, `SlaveWitness` | when a slave executes a command again, and concrete runs of a slave |
| `Composed` | master and slaves over a network that drops, delays and repeats messages |
| `Enrollment`, `EnrollmentDesk`, `EnrollmentRuns`, `EnrollmentComposed` | token protocol: machine, objects, guarantees, with the slaves |
| `EnrollmentRestarts`, `EnrollmentWitness` | what crashes leave of the token table, and concrete runs |
| `Summary`, `Nut` | the `/status` summary, the upsd reply reader |

**Parameters of a step.** Time stamps, the connected clients, new command ids and tokens (assumed
never used before), the results of runners, sends and file writes, and which of equally old
entries an unstable sort puts first. The configuration is fixed and valid: policy names are
unique and not empty.

**History variables** (no decision reads them): `Command.tracked`'s tags, `Episode.commandFrom`
and `Episode.seen`, `LocalShutdown.grounds`, `World.issued` and `World.process`, the logs in
`Store`, the sets at the end of `Slave.Machine`, and the histories that `Conn` and `Office` name
as such.

## What the proofs found

The code is modelled as it is. Where a natural statement, or a comment in the source, does not
hold, a run on which it fails is proved, and the exact condition under which it holds.

- **Line power does not stop every automatic local shutdown.** A local shutdown that is running
  when the operator resets is kept (`shutdown.go:316`), but the episode forgets its command, so
  the end of the episode does not recognise it (`local_shutdown.go:62-65`, `episode.go:76`). If the
  runner then fails, the watcher retries it on line power. `LinePowerSurvivors` gives the exact
  condition, `ResetRunnerRestartsOnLinePower` the whole run from every such state, and
  `PowersOffOnLinePower` one from the first start.
- **A retry of `remote_complete` does not look at the nodes.** A failed local shutdown is retried
  with its old trigger (`local_shutdown.go:178-182`), also when a node has joined since that has
  reported nothing. `DecisionsRestOnGrounds` says what every decision rests on,
  `RetryStillComplete` when a retry still finds every node finished, and
  `RetriesWithoutTheNewNode` is the run.
- **A crash forgets what is not written.** What holds over every later run, crashes included, is
  exactly what holds in memory and in every live snapshot; a snapshot is live if it is the file, or
  its write is pending and can still replace the file. This is proved of a policy's firing
  (`FiredForGoodIsExact`), a disabled command (`DeadIsExact`), a reported success
  (`ReportIsExact`), the end of an outage (`EndedIsExact`), a token that is no longer a node's
  (`RetiredIsExact`) and one that stays a node's (`SettledIsExact`). Runs from the first start show
  a reset command that is live again and sent (`ResetIsForgotten`); an ended outage that goes on
  after a crash, with a send and a power-off and no battery reading (`EndIsForgotten`); a revoked
  token that admits its node again although the revocation has returned
  (`RevocationIsForgotten`); and two confirmations with no revocation between them
  (`ConfirmsTwice`).
- **After a restart the master can power itself off before it knows anything of the UPS.** Automatic
  sends and the watcher wait until the UPS is confirmed (`AutomaticActivityIsConfirmed`); a node's
  report that completes a restored command does not (`shutdown.go:277-289`).
  `UnconfirmedDecisions` and `UnconfirmedStarts` say exactly when, `AckStartsUnconfirmed` is the
  run.
- **A closed connection can still bind the token it was issued** (`conn.go:117-126`), also after a
  rotation and a revocation of the node have returned: `BindsAfterReturnedChange` says which
  connections can, `ClosedConnectionBinds` is the run.
- **A slave can lose a claim.** If the reply to a replayed command that is still "executing" cannot
  be sent, the claim stays in `executions` with no goroutine behind it (`client.go:357-361`), and no
  replay executes the command again before a restart: `LeakNeedsFailedReply`, `LeakedNeverRuns`,
  and the run `ReplyFailureLosesClaim`.
- **A slave can execute a command again that has succeeded**, exactly when the success was recorded
  after the message at hand was looked up, or has been forgotten (`ReexecutesExactlyWhen`). It is
  forgotten exactly by a restart from a file without it, by eviction of its record, or by a state
  recorded over it (`ForgetsExactlyBy`). `StaleLookupReexecutes`, `CrashReexecutes` and
  `EvictionReexecutes` are runs from the first start.
- **A slave may register with a token it loses on restart**, against the comment at
  `internal/slave/state.go:59-61`: when a token cannot be stored, a command state recorded meanwhile
  still carries it to the disk. `TokenIsDurableUnlessStray` is the exact condition,
  `StrayReplacesToken` the way there, and `StrayTokenIsStored` the run. A token reported as stored is never lost this way
  (`ConfirmedTokenIsDurable`, `TokenStaysDurable`).

## Model

| member | source | states |
|---|---|---|
| `MasterTheorems.ActiveCommandIsConsistent` | internal/master/episode.go:173-252 | In every reachable state the active id names an existing command that is not disabled; it is automatic iff it is the episode's; at most one automatic command is not disabled; `shutdownIssued` iff a command is active |
| `MasterTheorems.AtMostOneRunner` | internal/master/local_shutdown.go:207-254 | At most one local shutdown runner is in flight, exactly while the phase is executing, and the local shutdown in place is the one it was started for |
| `MasterTheorems.RunnerIsUndisturbed` | internal/master/local_shutdown.go:67-205 | While a runner is in flight, no event but its return or a crash changes the local shutdown or starts another runner |
| `MasterTheorems.RunnerSettlesItsOwn` | internal/master/local_shutdown.go:229-254 | A returning runner settles exactly the local shutdown it was started for, as completed or failed |
| `MasterTheorems.DisabledNeverSent` | internal/master/shutdown.go:424-460 | Over every later run of the process, a disabled command stays disabled or is dropped, and no step sends it to any node, whatever its local shutdown does |
| `MasterTheorems.ResetDisables` | internal/master/shutdown.go:305-324 | A reset disables the active command and the episode's, a runner in flight or not; a local shutdown of theirs stays in place iff it is running |
| `MasterTheorems.LinePowerDisables` | internal/master/episode.go:63-99 | Line power disables the episode's command in the same way |
| `MasterTheorems.SupersedeDisables` | internal/master/episode.go:198-267 | A new episode command disables the operator's; its local shutdown stays in place iff it is running, or has completed and the new command is not to all nodes |
| `MasterTheorems.CancelledNeverStarts` | internal/master/local_shutdown.go:207-214 | Once a command is disabled or dropped and no local shutdown follows it, none of it is ever in place or started again in this process |
| `MasterTheorems.CancelledDecisionNeverStarts` | internal/master/local_shutdown.go:185-228 | A decision to start, of the watcher (with or without a command) or of an ack handler, starts a runner iff the local shutdown it was taken for has been in place in every state since, and is neither running nor completed |
| `MasterRestarts.DisabledOnDiskIsDead` | internal/master/state.go:84-125 | A command that the file records as disabled is disabled or gone in memory and in every live snapshot |
| `MasterRestarts.DisabledIsForever` | internal/master/shutdown.go:492-510 | From then on it stays disabled or gone, and is never sent again, over any number of crashes and restarts |
| `MasterRestarts.DeadIsExact` | internal/master/state.go:24-125 | A command is disabled or gone in every state of every later run, crashes included, iff it is so in memory and in every live snapshot now |
| `MasterRestarts.DeadNeverStarts` | internal/master/state.go:136-162 | If moreover no local shutdown follows it, none is ever in place or started again, over any number of crashes and restarts |
| `MasterRestarts.RestartDropsDead` | internal/master/state.go:155-161 | One that still follows it is gone with the next restart |
| `MasterRestarts.ReportOnDiskIsSettled` | internal/master/shutdown.go:261-265 | A report of executed or simulated that the file has is in memory and in every live snapshot of its command |
| `MasterRestarts.ReportIsExact` | internal/master/state.go:24-125 | A report of executed or simulated is there as long as its command is, in every state of every later run, crashes included, iff it is in memory and in every live snapshot now |
| `MasterWitness.ResetIsForgotten` | internal/master/shutdown.go:321-323 | A reachable state after a reset from which a crash makes the command live again, and a node that connects is sent it |
| `MasterTheorems.PendingLocalIsLive` | internal/master/state.go:136-162 | A waiting, wait-expired or emergency local shutdown never follows a missing or disabled command, right after a restart included |
| `MasterOutages.PoliciesFireByPollHistory` | internal/master/episode.go:104-168 | Over every run: a reading-based policy becomes due at a poll iff it has not fired and the maximal run of matching readings ending here, since the last line-power reading or restart, began at least `duration` ago; failed polls are skipped |
| `MasterOutages.DuePoliciesFire` | internal/master/episode.go:173-234 | Applying the due policies makes exactly them fired, after those fired before |
| `MasterOutages.EveryPollIsEvaluated` | internal/master/ups.go:49-75 | Over every interleaving, the poller is idle again after a battery reading or a failed poll only once it has evaluated the policies for it |
| `MasterOutages.DueIsFired` | internal/master/episode.go:160-188 | Over every interleaving, a policy that a poll finds due has fired by the time the poller is idle again |
| `Debounce.TimersRefineHistory` | internal/master/episode.go:104-168 | The `matchSince` timers refine the history of readings, at every poll of an episode |
| `MasterSilence.SilenceIsHistory` | internal/master/ups.go:77-94 | Over every run, the silence is told by the polls of the current process: it is there iff the last poll failed, later than the last reading, and counts from that reading, or from the start if there was none |
| `MasterSilence.FailedPollFires` | internal/master/episode.go:104-141 | Over every run: a failed poll leaves the timers alone and makes due exactly the unfired unreachable policies whose time that silence has reached, unless a reading is awaited after power-off; such a policy vouches for the episode, fired or not |
| `Policy.MatchesIsConditions` | internal/master/policy.go:45-63 | A reading satisfies a policy iff the policy is about readings and every condition it asks for holds; one on a value not reported never does |
| `MasterOutages.FiresOncePerProcess` | internal/master/episode.go:139-188 | Over every run of the process, whatever is written or not: a policy that fired at a poll is not due again before line power |
| `MasterOutages.FiresOncePerOutage` | internal/master/episode.go:234-239 | Once the snapshot of its firing, or a later one, has been written, it is not due again before line power, over resets, crashes and restarts |
| `MasterOutages.FiredForGoodIsExact` | internal/master/state.go:24-125 | A firing is remembered in every state of every later run of the outage, crashes included, iff it is in memory and in every live snapshot now |
| `MasterTheorems.EpisodeTargetIsFiredPolicies` | internal/master/episode.go:173-252 | The episode command matches a node iff some policy fired since its creation does; every node of any command matched with the tags it had when added, and only nodes of a command have reported on it |
| `MasterTheorems.AutomaticActivityIsConfirmed` | internal/master/shutdown.go:424-460 | No step sends an automatic command, and the watcher starts no automatic local shutdown, unless the UPS is confirmed |
| `MasterTheorems.UnconfirmedDecisions` | internal/master/shutdown.go:277-289 | A decision to start an automatic local shutdown is taken unconfirmed iff an ack handler takes it in a process that has not confirmed the UPS |
| `MasterTheorems.UnconfirmedStarts` | internal/master/local_shutdown.go:207-228 | An automatic local shutdown that starts unconfirmed was decided on by an ack handler with `remote_complete`, on the reports of all nodes of its command |
| `MasterWitness.AckStartsUnconfirmed` | internal/master/shutdown.go:277-289 | A reachable state in which that happens |
| `MasterSilence.ConfirmedExactlyBy` | internal/master/local_shutdown.go:79-105 | Over every run: the UPS becomes confirmed iff a reading has been taken in, or during an episode a silence told by the polls is long enough for an unreachable policy or is the emergency of a tick; only a restart takes it back |
| `MasterTheorems.PoweredOffMasterWaitsForReading` | internal/master/local_shutdown.go:55-57 | A process that restored an episode which powered the master off stays unconfirmed until it reads the UPS or has a local shutdown fail |
| `MasterLinePower.LinePowerEndsAutomaticActivity` | internal/master/episode.go:63-99 | Within a process, from the end of the episode to the next battery reading: no episode, no automatic command is sent, and a local shutdown that starts is manual or the one the ending left in place |
| `MasterEndings.EndedForGood` | internal/master/episode.go:63-99 | Over every run without a battery reading, crashes and restarts included, from a state with no episode in memory or in a live snapshot: no episode, no automatic command is sent, and a local shutdown that starts is manual, or the one the ending left in place and there was no restart |
| `MasterEndings.EndedIsExact` | internal/master/state.go:24-125 | Without a battery reading there is no episode in any state of any later run, crashes included, iff there is none in memory or in a live snapshot, and no battery reading is in hand, now |
| `MasterEndings.LinePowerEndsForGood` | internal/master/episode.go:89-95 | That is so as soon as the snapshot of the ending, or a later one, has been written |
| `MasterWitness.EndIsForgotten` | internal/master/local_shutdown.go:79-105 | A reachable state right after the ending from which a crash and a failed poll lead to sending the automatic command and starting the local shutdown |
| `MasterLinePower.LinePowerSurvivors` | internal/master/episode.go:67-81 | An automatic local shutdown survives line power iff it is running or does not belong to the episode; in the latter case its command was disabled and it has completed or failed |
| `MasterLinePower.ResetRunnerRestartsOnLinePower` | internal/master/local_shutdown.go:172-184 | From every state in which the episode's local shutdown is running, the poller is idle and the watcher has no decision pending: reset, failure, line power, and the watcher's decision and start form a run, which starts the runner with no episode and line power as the last reading |
| `MasterWitness.PowersOffOnLinePower` | internal/master/local_shutdown.go:172-205 | That run exists from the first start on |
| `MasterTheorems.CommandsOnlyAdvance` | internal/master/shutdown.go:246-276 | Over every run of a process: a command's targets and nodes only grow, no report is lost, executed and simulated are final, disabled stays disabled, a dropped command never returns |
| `MasterTheorems.TimeoutIsMasterAssigned` | internal/master/shutdown.go:167-208 | A node times out by the master's scan only, never by a report |
| `MasterTheorems.UpdatesComeFromAcks` | internal/master/conn.go:203-223 | Outside that scan a node's status changes only by an ack of that node, for that command, with a reportable status |
| `MasterTicks.NewEmergencyStarts` | internal/master/local_shutdown.go:79-124 | An emergency of an episode that no local shutdown of the episode answers, and no running one hinders, always starts one, and sends the episode's command to every node that has not succeeded |
| `MasterTicks.WaitingEnds` | internal/master/local_shutdown.go:134-171 | A tick starts a waiting local shutdown iff every node has finished, or there is an emergency, or `max_wait` has passed since it was armed; in this order, with the trigger, phase and sends of each |
| `MasterTicks.PastWaiting` | internal/master/local_shutdown.go:172-184 | An expired wait and an emergency are started at every tick, a failed one 30 s after its last attempt, with its trigger; a running or completed one is left alone |
| `MasterTicks.NothingStarts` | internal/master/local_shutdown.go:97-133 | Without a new emergency, and with no local shutdown or an automatic one while the UPS is not relied on, a tick decides nothing |
| `MasterTicks.EmergencyMeaning` | internal/master/local_shutdown.go:29-57 | The emergency of a tick is the first that applies: runtime below the threshold on battery, low battery on battery, silence of the configured length that counts |
| `MasterSilence.WaitIsBounded` | internal/master/local_shutdown.go:147-171 | Over every run, with the silence told by the polls: what the tick decides for a waiting local shutdown; it never waits past `max_wait` |
| `MasterSilence.EmergencyProceeds` | internal/master/local_shutdown.go:79-184 | Over every run, in an emergency of an episode with the UPS relied on and nothing running, the tick leaves a local shutdown of the episode and decides to start it iff it has not completed and did not fail less than 30 s ago |
| `MasterTicks.StartMarks` | internal/master/local_shutdown.go:207-228 | A start marks the local shutdown as running with its trigger and time, and the episode as one that powers the master off unless it is a dry run |
| `MasterTicks.ReturnMarks` | internal/master/local_shutdown.go:231-253 | A return completes or fails it, and a failure takes that mark off |
| `MasterTicks.RestartKeeps` | internal/master/state.go:24-162 | A restart from a snapshot keeps all commands, the active one and the episode but for its timers; the local shutdown iff it was neither running nor completed and its command is not disabled, or it and the episode have none |
| `MasterTheorems.DryRunNeverPowersOff` | internal/master/local_shutdown.go:207-229 | Every local shutdown and every runner call carries the dry-run flag of its command, or the configuration's if it has none |
| `MasterOrigins.FlagIsAsked` | internal/master/episode.go:209-224 | Over every run, of every command in memory and in every snapshot: an automatic one has the configuration's dry-run flag, any other that of the request that issued it, or the configuration's if the request has none |
| `MasterOrigins.DryRunPowersNothingOff` | internal/master/shutdown.go:53-66 | Over every run with a dry-run configuration: the runner is called for real, and a command sent as real, only for a command whose request asked for that |
| `MasterTheorems.DecisionsRestOnGrounds` | internal/master/local_shutdown.go:134-184 | Every decision with `remote_complete` or `wait_expired` is for a command to all nodes. The first is made with every target reported executed, simulated or failed, or `max_wait` after arming; every other one retries a failed local shutdown, or an expired wait, whose first decision was made so |
| `MasterTheorems.GroundsAreWhatWasSeen` | internal/master/shutdown.go:269-280 | The recorded grounds of a local shutdown change only by such a first decision, and are the reports, or the tick, of that step |
| `MasterTheorems.RetryStillComplete` | internal/master/local_shutdown.go:178-182 | When `remote_complete` is retried, every node is finished iff the nodes that joined since, and those that had failed, have a finished report now |
| `MasterTheorems.RetryStillExpired` | internal/master/local_shutdown.go:165-182 | A retry of `wait_expired` is past `max_wait` unless the clock went back behind the tick that found it expired |
| `MasterWitness.RetriesWithoutTheNewNode` | internal/master/local_shutdown.go:178-182 | A reachable state in which the watcher decides `remote_complete` with a target node that has reported nothing |
| `MasterRuns.StepKeeps` | internal/master/local_shutdown.go:67-205 | Every event of the master, crash and restart included, keeps the invariant of the whole master |
| `MasterInvariant.EndEpisodeSound` | internal/master/episode.go:63-99 | Ending the episode keeps the state invariant and advances commands |
| `MasterInvariant.ApplyPolicyMatchSound` | internal/master/episode.go:173-252 | Creating or widening the episode command keeps the invariant, and sends only to nodes that have not reported success (what it must do: `FiringCreates`, `FiringWidens`) |
| `MasterInvariant.RetrySound` | internal/master/episode.go:331-366 | The same for the retry of failed, timed-out and new nodes |
| `MasterInvariant.EvaluateLocalSound` | internal/master/local_shutdown.go:67-205 | The watcher keeps the invariant, and a decision to start names the startable local shutdown in place (what it must decide: `MasterTicks`) |
| `MasterInvariant.RecordUpdateSound` | internal/master/shutdown.go:246-291 | Recording an ack keeps the invariant and loses no report |
| `MasterInvariant.TriggerSound` | internal/master/shutdown.go:40-97 | An operator's command keeps the invariant (what it must do: `RequestCarriedOut`) |
| `MasterInvariant.ReplaySound` | internal/master/shutdown.go:424-460 | Replay to a reconnecting node keeps the invariant and sends only the live active command |
| `MasterInvariant.LoadSound` | internal/master/state.go:24-58 | Whatever was captured from a state with the invariant loads into a state with the invariant |
| `MasterDuties.RequestGranted` | internal/master/shutdown.go:40-78 | An operator's request is granted iff its timeout is allowed, some connected client is addressed and no command is active; the refusals in the source's order |
| `MasterDuties.RequestCarriedOut` | internal/master/shutdown.go:53-97 | The command tracks, and is sent to, exactly the connected clients that the request addresses (all if it names no node and no tag), with its flag and timeout or the configuration's; the master waits for it iff it is for all nodes and nothing stands in the way |
| `MasterDuties.FiringCreates` | internal/master/episode.go:207-252 | The first policies to fire create a command with the configuration's flag and timeout, for exactly the nodes that one of them is for, sent to exactly the connected ones; the master waits iff one of them is for all nodes and nothing stands in the way |
| `MasterDuties.FiringWidens` | internal/master/episode.go:198-206 | Later ones widen it: sent to exactly the connected clients it is for now and did not track, which get the full timeout; the master starts to wait iff it becomes one for all nodes and nothing stands in the way |
| `MasterDuties.RetryReaches` | internal/master/episode.go:331-366 | The command is sent again, with the full timeout, iff the UPS is confirmed, 30 s have passed and some node needs it; to exactly the nodes that failed, timed out, or are connected, addressed and not tracked |
| `MasterDuties.ScanTimesOut` | internal/master/shutdown.go:167-208 | Exactly the unsettled nodes of overdue commands time out; an overdue command with nodes completes; the active manual one is released iff it is overdue and every node has finished |
| `MasterDuties.ReportTaken` | internal/master/shutdown.go:246-291 | A report counts iff it is of a reportable kind, for a node of the command that has not succeeded; then the command completes iff all nodes are settled, the active manual one is released iff all have finished, and its waiting local shutdown starts iff all have finished |
| `MasterDuties.ReconnectReplays` | internal/master/shutdown.go:424-460 | A connecting node joins the active command iff it is addressed, and is sent it iff it is one of its nodes and has not succeeded; an automatic one is held back until the UPS is confirmed |
| `MasterDuties.BatteryOpens` | internal/master/episode.go:46-57 | A battery reading opens an episode at its time iff there is none |
| `MasterDuties.LinePowerEnds` | internal/master/episode.go:63-99 | Line power disables exactly the episode's command, drops its local shutdown unless running, and ends it |
| `MasterDuties.LinePowerReleases` | internal/master/episode.go:82-88 | It releases the active manual command iff all nodes are settled |
| `MasterDuties.ResetEnds` | internal/master/shutdown.go:305-324 | A reset disables exactly the active command and the episode's, drops a local shutdown unless running, and keeps the episode without a command |
| `MasterSaving.LastSnapshotIsCurrent` | internal/master/state.go:71-103 | In every reachable state the last snapshot taken holds all that the file is to hold now |
| `MasterServer.Server.StartEpisodeIfNeeded` | internal/master/episode.go:46-57 | In place, equal to the function that `BatteryOpens` is about |
| `MasterServer.Server.EndEpisodeOnLinePower` | internal/master/episode.go:63-99 | In place, equal to the function that `LinePowerEnds` is about |
| `MasterServer.Server.EvaluateEpisodePolicies` | internal/master/episode.go:104-168 | The loop over the policies computes the scan that the two history theorems are about |
| `MasterServer.Server.ApplyPolicyMatch` | internal/master/episode.go:173-252 | In place, equal to the function that `FiringCreates` and `FiringWidens` are about |
| `MasterServer.Server.AdoptMatchingClients` | internal/master/episode.go:272-285 | The loop adopts exactly the matching clients not yet tracked |
| `MasterServer.Server.RetryEpisodeShutdown` | internal/master/episode.go:331-366 | The loops collect exactly the nodes to retry; equal to the function that `RetryReaches` is about |
| `MasterServer.Server.MarkTimedOutCommands` | internal/master/shutdown.go:167-208 | The scan, loop by loop, times out, releases and prunes as the function that `ScanTimesOut` is about |
| `MasterServer.Server.EvictionCandidates` | internal/master/shutdown.go:217-244 | The loop collects exactly the completed commands that are neither active nor followed by the local shutdown |
| `MasterServer.Server.PruneCompletedCommands` | internal/master/shutdown.go:217-244 | Drops the excess over 200, oldest completed first, never the active command or the one the local shutdown follows |
| `MasterServer.Server.RecordShutdownUpdate` | internal/master/shutdown.go:246-291 | In place, equal to the function that `ReportTaken` is about |
| `MasterServer.Server.TriggerShutdown` | internal/master/shutdown.go:40-97 | In place, equal to the function that `RequestGranted` and `RequestCarriedOut` are about |
| `MasterServer.Server.ResetActiveCommand` | internal/master/shutdown.go:305-324 | In place, equal to the function that `ResetEnds` is about |
| `MasterServer.Server.ReplayableShutdownForNode` | internal/master/shutdown.go:424-460 | In place, equal to the function that `ReconnectReplays` is about |
| `MasterServer.Server.EvaluateLocalShutdown` | internal/master/local_shutdown.go:67-205 | In place, equal to the function that `MasterTicks` is about |
| `MasterServer.Server.BeginLocalShutdownExecution` | internal/master/local_shutdown.go:207-228 | In place, equal to the function that `StartMarks` is about; tells whether the runner is called |
| `MasterServer.Server.FinishLocalShutdownExecution` | internal/master/local_shutdown.go:229-254 | In place, equal to the function that `ReturnMarks` is about |
| `MasterServer.Server.constructor` | internal/master/state.go:24-58 | A server starts as the `Load` of the file that `RestartKeeps` is about |
| `Types.MergeMatchesEither` | internal/master/episode.go:368-399 | A merged target matches exactly the nodes that either target matches |
| `Policy.BuildPolicyMatch` | internal/master/policy.go:21-43 | The loop gathers the combined target of the named policies |
| `Policy.TargetMatchesSomePolicy` | internal/master/policy.go:66-74 | That target matches a node iff the target of some named policy does |
| `Policy.MergeIsConcat` | internal/master/episode.go:368-376 | Merging the targets of two batches is the target of all their policies |
| `Retention.FindEvicted` | internal/master/shutdown.go:217-244 | The excess entries, oldest first: none kept is older than one dropped |
| `Retention.EvictionBounds` | internal/slave/client.go:490-507 | What stays is at most the cap, or at most the exempt entries |
| `Persist.DiskHoldsHighest` | internal/master/state.go:84-125 | Over every order and failure of writes the file holds the highest-numbered snapshot written |
| `Persist.DiskNeverRegresses` | internal/slave/state.go:99-131 | The written number never goes down and a snapshot never changes |
| `Persist.StateFile.PersistState` | internal/master/state.go:111-125 | The file object follows the store that these two lemmas are about |
| `Summary.SummarizeCommand` | internal/master/shutdown.go:359-406 | Every counter is the number of target nodes in its class |
| `Summary.SummaryConserves` | internal/master/shutdown.go:359-406 | targeted = acknowledged + outstanding; complete iff targeted > 0 and executed + simulated + failed + timeout = targeted |
| `SlaveRuns.AtMostOneExecution` | internal/slave/client.go:509-524 | In every reachable state at most one execution per command id is in flight, and the executions map is what is in flight, claimed or leaked |
| `SlaveRuns.LeakNeedsFailedReply` | internal/slave/client.go:354-361 | In every reachable state a step leaves an id taken with nothing in flight and nobody claiming it, which it was not before, iff the reply to a replayed executing command fails to send |
| `SlaveRuns.LeakedNeverRuns` | internal/slave/client.go:509-518 | Over every run without a restart, a lost claim stays lost, so its command is not executed |
| `SlaveWitness.ReplyFailureLosesClaim` | internal/slave/client.go:356-361 | A reachable state with a lost claim and no execution in flight |
| `SlaveReexecution.StartsOnlyHere` | internal/slave/client.go:367-372 | In every reachable state a step adds an execution of a command iff it is the reply after a claim by a replay, or the claim of a resumed command that nobody holds |
| `SlaveReexecution.ReexecutesExactlyWhen` | internal/slave/client.go:354-422 | Over every run: a step that starts an execution starts one of a command that has already succeeded iff the success was recorded since the message was looked up, or the slave has forgotten it |
| `SlaveReexecution.ForgetsExactlyBy` | internal/slave/client.go:478-507 | A step makes the slave forget a success iff it restarts from a file without it, evicts its record, or records another state for the command |
| `SlaveReexecution.OnlyMessagesStart` | internal/slave/client.go:347-376 | Over every interleaving up to the next message, nothing is executed unless the message at hand may still do so (what must be executed: `UnfinishedIsCarriedOut`) |
| `SlaveReexecution.FinishedIsOnlyRepeated` | internal/slave/client.go:354-375 | Over every interleaving up to the next message or crash, a replay that finds its command executed or simulated starts nothing, and the answer on its way or sent is the recorded state |
| `SlaveDuties.UnfinishedIsCarriedOut` | internal/slave/client.go:354-422 | Over every interleaving in which no reply fails, up to the next message or crash: a real command that the slave does not know, or knows as accepted, failed or executing, has been taken up (an execution started, or one found claimed) and reported as executing by the time the goroutine is done |
| `SlaveDuties.TakenIsInFlight` | internal/slave/client.go:509-518 | What is taken up is in flight then, unless its claim is a lost one |
| `SlaveDuties.DryRunIsSimulated` | internal/slave/client.go:399-409 | Likewise a dry run is recorded as simulated and reported so |
| `SlaveDuties.ResultIsReported` | internal/slave/client.go:441-469 | In every reachable state: an execution records executed iff its command succeeded, failed otherwise, is never evicted before that, reports it on the session bound to it, and gives up its claim |
| `SlaveDuties.RecordsAreSaved` | internal/slave/client.go:478-485 | In every reachable state the last snapshot taken has all command states |
| `SlaveDuties.RegistersWithItsToken` | internal/slave/state.go:59-93 | A slave registers with its issued token if it has one, gives it up iff the master calls it invalid, and sets out to store one iff it is issued one |
| `SlaveWitness.StaleLookupReexecutes` | internal/slave/client.go:354-371 | A reachable state in which a success that is recorded is executed again, its message having been looked up before |
| `SlaveWitness.CrashReexecutes` | internal/slave/client.go:451-456 | A reachable state in which a success is executed again after a crash before it was recorded |
| `SlaveWitness.EvictionReexecutes` | internal/slave/client.go:490-507 | A reachable state in which a success is executed again after its record was evicted |
| `SlaveRuns.ReportsAreTrue` | internal/slave/client.go:399-469 | Executing, executed and failed arise only for commands received as real on a real node, executed only after success, simulated only for a dry run; a dry-run node executes nothing |
| `SlaveRuns.PruningSparesInFlight` | internal/slave/client.go:478-507 | Recording a state leaves at most max(200, in flight) states, and only a restart loses the state of a command in flight |
| `SlaveRuns.ConfirmedTokenIsDurable` | internal/slave/client.go:275-289 | When `token_stored` is sent the token is on disk and in every snapshot that may still be written |
| `SlaveRuns.TokenStaysDurable` | internal/slave/state.go:62-131 | It stays so over every interleaving with command states and over crashes, until the token is next set or cleared |
| `SlaveRuns.TokenIsDurableUnlessStray` | internal/slave/state.go:59-93 | The token a slave registers with survives a crash iff no live snapshot was taken while a token that could not be stored was in memory |
| `SlaveRuns.StrayReplacesToken` | internal/slave/state.go:62-82 | The exception: such a snapshot puts the failed token on disk |
| `SlaveWitness.StrayTokenIsStored` | internal/slave/state.go:62-82 | A reachable state in which the file has a token that the slave does not |
| `SlaveRuns.StepKeeps` | internal/slave/client.go:347-422 | Every step of every goroutine, crash and restart included, keeps the slave's invariant (what the steps must do: `SlaveDuties`) |
| `SlaveClient.Client.SetCommandState` | internal/slave/client.go:478-507 | Records, prunes and writes in place |
| `SlaveClient.Client.BeginOrRebind` | internal/slave/client.go:509-518 | Claims iff nothing is claimed; the session is rebound either way |
| `SlaveClient.Client.FinishExecution` | internal/slave/client.go:520-524 | Removes exactly this claim |
| `SlaveClient.Client.SetIssuedToken` | internal/slave/state.go:62-82 | Undisturbed by others: on success the token is on disk, on failure memory and disk hold what they held |
| `SlaveClient.Client.RegisterToken` | internal/slave/state.go:86-93 | The issued token if there is one, else the configured one |
| `Composed.RecordedStatusIsTrue` | internal/master/conn.go:203-223 | In every composed run: executed recorded for a node means its shutdown command returned success and neither side is a dry run; simulated means one of them is |
| `EnrollmentRuns.OneOpenConnection` | internal/master/registry.go:14-37 | A node has at most one open served connection, the registered one |
| `EnrollmentRuns.ReturnedChangeDisconnects` | internal/master/enrollment.go:61-114 | Once a rotation or revocation has returned, in this process or an earlier one, every connection of the node still served registered after it, with the token the node had then (an enrolment token if it had none) |
| `EnrollmentRuns.OneConfirmationBetweenRevocations` | internal/master/enrollment.go:80-90 | Over all processes, two confirmations for a node have a revocation between them, or a restart from a file without the node's token |
| `EnrollmentRuns.ConfirmationNeverOverwrites` | internal/master/conn.go:117-128 | `token_stored` binds iff the node has no token by the history of changes; otherwise the table is untouched and the connection ends |
| `EnrollmentComposed.BoundTokenWasDurable` | internal/master/enrollment.go:80-90 | Over every run with slaves: a token bound on a slave's own connection was durable on that slave when it sent `token_stored` |
| `EnrollmentComposed.BoundTokenWasStored` | internal/slave/client.go:275-289 | That slave sent `token_stored` for this very token in that session |
| `EnrollmentRestarts.RequestsGoOn` | internal/master/state.go:71-76 | A request that has taken its snapshot can always go on to write it: nobody else writes it, and it is pending |
| `EnrollmentRestarts.RetiredIsExact` | internal/master/enrollment.go:77-114 | A token is not the node's in any state of any later run, crashes included, iff it is not in memory, not in a live snapshot, and not on offer on a connection of the node now |
| `EnrollmentRestarts.RetiredNeverAdmits` | internal/master/enrollment.go:42-59 | From then on it never admits the node, unless it is an enrolment token |
| `EnrollmentRestarts.ChangeRetires` | internal/master/enrollment.go:94-114 | A token that was rotated or revoked is so as soon as a snapshot taken after the change has been written |
| `EnrollmentRestarts.SettledIsExact` | internal/master/state.go:24-125 | While nobody changes it and the file is not lost, a token is the node's in every state of every later run, crashes included, iff it is so in memory and in every live snapshot now |
| `EnrollmentRestarts.SettledAlwaysAdmits` | internal/master/enrollment.go:42-51 | Such a token always admits its node |
| `EnrollmentRestarts.EnrolmentAdmits` | internal/master/enrollment.go:52-59 | A node without a token by the history is admitted, and issued one, iff it presents an enrolment token while enrolment is open |
| `EnrollmentRestarts.ConfirmedOnceAndForAll` | internal/master/enrollment.go:80-90 | That is so for a confirmed token once a snapshot taken after the confirmation has been written, and no other enrolment of the node is confirmed until the token is changed or the file is lost |
| `EnrollmentRestarts.BindsAfterReturnedChange` | internal/master/conn.go:117-128 | After a returned change, `token_stored` binds only on a connection that presented an enrolment token while the node had no token, and that registered after the change or is closed |
| `EnrollmentWitness.RevocationIsForgotten` | internal/master/enrollment.go:144-154 | A reachable state, with a revocation returned, from which a crash lets the revoked token admit the node |
| `EnrollmentWitness.ConfirmsTwice` | internal/master/enrollment.go:80-90 | A reachable state with two confirmations of a node and only a restart between them |
| `EnrollmentWitness.ClosedConnectionBinds` | internal/master/conn.go:106-128 | A reachable state in which a closed connection binds after a rotation and a revocation have returned |
| `EnrollmentDesk.TokenDesk.AuthenticateNode` | internal/master/enrollment.go:42-59 | In place, equal to `Authenticate` |
| `EnrollmentDesk.TokenDesk.RegisterIfTokenUnchanged` | internal/master/enrollment.go:67-75 | Registers iff the hash is still the one authenticated against; a replaced connection is closed |
| `EnrollmentDesk.TokenDesk.ConfirmIssuedToken` | internal/master/enrollment.go:80-90 | Binds iff the node has no token |
| `EnrollmentDesk.TokenDesk.IssueNodeToken` | internal/master/enrollment.go:94-102 | Binds the new token and closes the registered connection |
| `EnrollmentDesk.TokenDesk.RemoveNodeToken` | internal/master/enrollment.go:106-114 | Removes the token and tells whether there was one |
| `EnrollmentDesk.MatchesAny` | internal/master/enrollment.go:47-57 | The loop over all hashes finds a match iff there is one; an empty candidate never matches |
| `EnrollmentDesk.Registry.Set` | internal/master/registry.go:14-21 | Replaces the client and closes the replaced one |
| `EnrollmentDesk.Registry.RemoveIfMatch` | internal/master/registry.go:29-37 | Removes the client only if it is the registered one |
| `Nut.ReplyRoundTrip` | internal/master/nut.go:52-86 | Reading a printed `LIST VAR` reply returns the printed map, later duplicates winning, iff it fits the limits; otherwise it is rejected |
| `Nut.SmallRepliesFit` | internal/master/nut.go:47-86 | At most 1024 variables on lines under 4096 bytes always fit |
| `Nut.TruncatedReplyRejected` | internal/master/nut.go:88-97 | A reply cut off anywhere is rejected |
| `Nut.RefusedLineRejected` | internal/master/nut.go:52-86 | A line that is neither the end line nor a readable variable of this UPS makes the reply fail, after any variables and before any text |
| `Nut.ForeignLineRejected` | internal/master/nut.go:64-84 | In particular a line of another UPS or another kind |
| `Nut.UnescapeEscape` | internal/master/nut.go:120-145 | Unescaping inverts escaping |
| `Nut.UnescapedQuoteRejected` | internal/master/nut.go:120-145 | A quote that is not escaped is rejected wherever it stands: the variable does not parse, and the reply it stands in fails |
| `Nut.AcceptedVarShape` | internal/master/nut.go:120-145 | An accepted variable is a non-empty space-free name and a quoted body that unescapes to its value |
| `Nut.ParseVar` | internal/master/nut.go:120-145 | The parsing loop agrees with the specification the lemmas are about |
| `Nut.ReadVarList` | internal/master/nut.go:52-86 | The reading loop agrees with the specification the lemmas are about |

## Left out

- Target node ids and tags are sets: the sorted, duplicate-free order of the source's slices is not modelled.
- Text fields that no decision reads: reasons, last errors, messages, the last rebroadcast time.
- Sockets, TLS, HTTP handlers, the status page, metrics, logging, SNMP, JSON and YAML: libraries and plumbing.
- Decoding of UPS variables into flags and numbers (`decodeNUTVars`): one-branch checks on text.
- The node directory and its online display; whether deleting a node is refused is a free choice.
- Config loading and validation: taken as a valid configuration.
- A configuration without a master state file: its runs are those in which no write succeeds.
- Client certificate identity: a connection that fails the check is one that exits before registering.
- SHA-256 and constant-time comparison: the digest is an injective function of the token.
- Reconnect backoff and jitter: a slave may connect at any time.
- Overflow of durations and clock skew: time is an unbounded integer and every step gets its own.
- The enrolment model has a store of the token table of its own; that one file holds it together with the commands is not modelled.
- When a connection saves the table after registering or confirming is free: any goroutine may take a snapshot at any time.
- SlaveClient.Client.SetIssuedToken: the method runs without interleaving; what other goroutines do between its lock and its write is in the slave machine.
