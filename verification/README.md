# A verified model of the RTT proxy's probe and session engine

The proxy reads trace data from embedded targets. Each client owns one *session*: it attaches to
the RTT control block of a core, forwards every byte of one up channel to the client, and sends
start and stop commands on a down channel. Several sessions may share a core (a bootloader and
its companion application), several cores share a debug *probe*, and the *manager* serves any
number of probes from a single thread. Probes and cores fail and come back at any moment.

This project models that engine and proves what holds over whole runs of it: every interleaving
of requests, removals and service ticks, with every outcome of every probe, socket and clock
operation left open.

## How it is built

There are two layers, and they meet in the contracts.

* **Objects.** `RateLimiter`, `SharedState`, `Core`, `RttSession`, `ProbeState` and `Manager` are
  classes whose methods take the steps the program takes, in its order, in place. Sessions on one
  core share one `SharedState` and one `Core`, which stands for the core behind the probe. Every
  method that changes state is proved to turn the old value of its object into exactly the value
  a specification function gives.
* **Values.** The specification functions (`SessionModel`, `ProbeModel`, `ManagerModel`) work on
  datatypes. The theorems are about those functions and, by induction, about every sequence of
  calls of them: `Life` for a session among arbitrary siblings, `RunOf` for a probe, `Proxy` for
  the whole manager starting with no probe.

What an operation may learn from outside comes in as a record (`UpdateInput`, `StopInput`,
`ServiceInput`, `SessionRequest`) with one field per outcome the code branches on. Time is an
integer number of nanoseconds; only the theorems about elapsed time ask for a clock that does not
run backwards.

| file | content |
|---|---|
| `RateLimiter.dfy` | clock, limiter, firing bound |
| `SharedState.dfy` | the two wrapping, clamped counters of a core |
| `SessionModel.dfy`, `RttSession.dfy` | a session as a value and as an object |
| `SessionProofs.dfy` | client stream, byte fidelity, command grammar over a session's life |
| `SessionTiming.dfy` | lifecycle order, attach and read bounds |
| `SessionSharing.dfy` | a session against its siblings: counters, catch, breakpoints |
| `SessionDecisions.dfy` | exactly when a session moves on, where an update leaves it, and when that costs its siblings a count |
| `SessionEffects.dfy` | what each step says, writes and leaves behind; pace; the Stop of every episode |
| `SessionControl.dfy` | what a session asks of its core, and exactly when it leaves the core alone |
| `ProbeModel.dfy`, `ProbeState.dfy` | a probe as a value and as an object |
| `ProbeProofs.dfy` | the invariant of a probe |
| `ProbeRuns.dfy` | runs of a probe: leaked catches, health check, recovery gate |
| `ProbePacing.dfy` | spacing of recoveries, exact round robin |
| `ProbeExact.dfy` | exactly when the counters are exact |
| `Scenarios.dfy` | runs from a new probe on which an expectation fails, and sessions beside a bootloader |
| `ManagerModel.dfy`, `Manager.dfy` | all probes as a value and as an object |
| `ManagerProofs.dfy` | the invariant of the proxy and the theorems about every run |
| `ProxyAtProbe.dfy` | the proxy as one probe sees it: ticks are service calls, round robin over ticks |
| `ProxyUses.dfy` | what probes leave in their cores from one use to the next |

Three pieces of bookkeeping exist only for the theorems; no operation reads them. `Log` records
what a session wrote and read, whether delivering data failed, how often it looked at its core,
and which attach attempt or stop wrote each command. `History` records updates, health checks,
setups, recoveries, the sessions pending since the last recovery, and what became of removed
sessions. A core's `orphaned` flag marks a catch that nobody
answers for: one that could not be switched off when it should have been, that lost its holder,
or that was found on when the probe was opened; and `control` and `settings` record what was asked
of the core: its resets and starts, and the number of operations on its catch and breakpoints.

## What turned out not to hold

* **The counters are not the number of users.** A session that fails before it raised a counter
  lowers it all the same when it stops. `CountsAreTakenOnARun` is a run of two requests and two
  service calls after which a session is attached and both counters are zero; `ExactnessIsLostIff`,
  `ShutDownExactIff` and `StepExactIff` say exactly which operations lose exactness, as conditions
  on the state before them and on the step that fails, and `ExactIffFair` that a whole run stays
  exact if and only if it contains none of them. What does hold on every run is the one-sided bound
  (`CountersNeverExceedHolders`).
* **The recovery gate does not always wait for every session.** Removing a session restarts the
  schedule without touching the gate. `SessionIsSkippedOnARun` is a run on which the gate opens
  with a session that is still there not updated since the recovery. `GateCoverage` and
  `RecoveryCoverageIff` say for any run, removals included, exactly when the gate waits long
  enough, `RemovalAtGate` what one removal does to that condition, and `RecoveryCoverage` that
  the condition holds after every recovery as long as nothing is removed.
* **A companion does drive its core.** It is documented to drive none of the core's control
  functionality, hardware breakpoints, reset and the like (rtt-proxy/src/lib.rs:86-88).
  `CompanionDrivesItsCore` is a run on which a companion without `reset` clears the core, enables
  the catch, arms a breakpoint, and later starts the core. `CompanionHandsOffIff` gives the
  condition under which an update of a companion asks nothing of its core and leaves it as it was,
  and `CompanionLifeHandsOffIff` extends it over a life. "Driving" is taken as asking: a request
  that happens to change nothing, such as clearing breakpoints where there are none, counts.
* **A bootloader does not have its core to itself.** It is documented to have exclusive access
  while other sessions on the core are suspended (rtt-proxy/src/lib.rs:80-84).
  `BootloaderDoesNotExclude` and `BootloaderDoesNotSuspend` show for every probe that a request
  beside it is accepted and that the sibling is set up when its turn comes;
  `ApplicationIsSetUpBesideBootloader` is a run. The second also says when the sibling leaves the
  bootloader's core alone: if and only if it keeps its hands off by the condition of
  `HandsOffIff`, in which the bootloader has no part except through the counters.

In all these the model follows the code.

## Model

| member | source | states |
|---|---|---|
| `ManagerProofs.ProxyHolds` | src/manager.rs:59-127 | Every state reachable from an empty proxy by any sequence of requests, session removals and ticks satisfies the whole invariant: structure, counter bounds, fresh handles, sound sessions, covered gate, paced recoveries, ids unique across probes. |
| `ManagerProofs.CountersNeverExceedHolders` | src/shared_state.rs:23-60 | In every reachable state, on every core, neither counter exceeds the number of sessions that hold it, and both are zero while the probe is lost. |
| `ManagerProofs.NoLeakedCatch` | src/rtt_session.rs:223-238 | In every reachable state, whatever was found in the cores when a probe was opened, a CoreReset catch that is on is held by a session attached to that very core, unless switching it off was tried and failed, its holder was dropped while the probe was lost, or it was on already when the probe was opened. |
| `ManagerProofs.EndingLeavesNothing` | src/manager.rs:153-171 | A probe that ending a session closes leaves both counters of every core at zero and no catch on for its next opening, except one that could not be switched off. |
| `ManagerProofs.RequestLeavesNothing` | src/manager.rs:185-196 | The same for a probe that a request prunes or, being exclusive, throws out with all its sessions. |
| `ManagerProofs.ReopeningOrphansNothing` | src/manager.rs:198-210 | A probe opened again on cores as its earlier use left them finds no catch on but those that could not be switched off then. |
| `ProxyUses.NoLeakedCatchAcrossUses` | src/manager.rs:145-259 | Over every run on which probes are closed and opened again on the cores they left: as long as every stop can switch the catch off and no holder is dropped, a catch that is on has a holder attached to its core, and no core of a closed probe has its catch on. |
| `ProxyUses.LeftIsAccounted` | src/manager.rs:145-259 | Over every such run, whatever fails, a catch left on in a closed probe is one that could not be switched off or was found on, and it is taken over as that when the probe is opened again. |
| `ProxyUses.UsesAreProxy` | src/manager.rs:59-127 | These runs are the runs of the proxy, with a record of what closed probes left beside them. |
| `ManagerProofs.NoStaleHandles` | src/manager.rs:340-365 | In every reachable state a running session uses RTT handles of its probe's present debug session, and its probe is not lost. |
| `ManagerProofs.EverySessionIsSound` | src/rtt_session.rs:276-334 | In every reachable state each session's output is a prefix of one error, or one start and then data; its bytes are the bytes read, in order, unless a delivery failed, and then the session is shut down and lacks at most the tail of the last chunk; its commands follow the grammar; if it is shut down it has answered its client or tried to; without recovery it ran at most once. |
| `ManagerProofs.EndedSessionsAreSound` | src/manager.rs:302-325 | The same stream, byte fidelity and command grammar hold for every session that was removed, as it was at its end. |
| `ManagerProofs.StopsFollowTheirStarts` | src/rtt_session.rs:239-246 | In every reachable state every Stop a session wrote when stopping comes directly after the Start written by the attach attempt that opened the same Run episode, the only Start of that attempt. |
| `ManagerProofs.StructureIsKept` | src/manager.rs:212-256 | The schedule lists exactly the sessions, each once, the index is in range, any two sessions of a probe differ in core, control block address or up channel, no id is in two probes, at most one probe is empty and never a lost one. |
| `ProxyAtProbe.TicksAreServices` | src/manager.rs:173-177 | Over any sequence of ticks from any reachable state, every probe is served once by every tick: the proxy at a probe is that probe after as many service calls. |
| `ProxyAtProbe.TickUpdatesScheduled` | src/manager.rs:173-177 | One tick updates, at every probe in service, exactly the scheduled session, with its own core and counters, and leaves all other sessions of the probe alone. |
| `ProxyAtProbe.RoundRobinOfTicks` | src/manager.rs:367-391 | Over any number of ticks with a probe in service, each of its n sessions has its turn once per full round and once more if the partial round passed it; within n ticks everybody has. |
| `ProxyAtProbe.EveryTickUpdates` | src/manager.rs:367-391 | Each of these ticks makes exactly one update on a probe with sessions. |
| `ProxyAtProbe.ProxyIsRunOf` | src/manager.rs:59-127 | As long as a probe stays open, through any requests, removals and ticks, the proxy at that probe is a run of the probe; so what holds over every run of a probe holds in the proxy. |
| `ProxyAtProbe.EpochCountsSetupsInProxy` | src/manager.rs:353-365 | As long as a probe stays open, the number of its debug session grows by exactly the setups that work. |
| `ManagerProofs.RecoveriesAreSpaced` | src/manager.rs:340-403 | Two recoveries of a probe are at least 100 ms and one update per session of the first one apart; health checks are at least 100 ms and setup attempts at least 50 ms apart; removals change nothing about that. |
| `ManagerProofs.TouchesAreBounded` | src/rtt_session.rs:291-393 | In every timely run each session keeps to T/20 + 2 attach attempts per episode (one without timeout), to T/poll + T/idle + 2 reads and T/50 + 1 looks for a stopping condition per Run episode, and to T/50 + 1 looks for recovery per Stopped episode. |
| `ManagerProofs.RejectedRequestFrames` | src/manager.rs:179-259 | A rejected request changes no probe with sessions, except one it was allowed to throw out, beyond registering a core with zero counters; it leaves at most the probe asked for empty, and no session for the client. |
| `ManagerProofs.AcceptedRequestAddsOne` | src/manager.rs:179-259 | An accepted request adds exactly its own session to the probe asked for; an exclusive one leaves that session alone there; other probes with sessions are unchanged and empty ones are gone. |
| `ManagerProofs.AcceptedIff` | src/manager.rs:179-256 | A request is accepted if and only if the probe is found, the system cooperates, and either the probe at hand is in service and no session there has the same core, the same control block address and the same up channel, or a new one can be opened; an exclusive request is never refused for a taken channel or a recovery. |
| `ManagerProofs.RefusalIs` | src/manager.rs:185-255 | Which error a refused request gets: a taken channel is reported before a recovery, and a recovery before an I/O error. |
| `ManagerProofs.FiledIff` | src/manager.rs:198-210 | The probe asked for is filed afterwards if and only if it could be reused or opened; one that was opened is in service with its first debug session. |
| `ManagerProofs.EndSessionRemovesOne` | src/manager.rs:153-171 | Ending a session removes exactly that id wherever it is, leaves every other probe with sessions unchanged, and drops the probes left empty. |
| `ManagerProofs.HandleRequestHolds` | src/manager.rs:179-259 | A request with a fresh id keeps the invariant of the proxy, accepted or not, exclusive or not. |
| `ManagerProofs.ShutdownSessionHolds` | src/manager.rs:153-171 | Removing a session and pruning keep the invariant of the proxy. |
| `ManagerProofs.ServiceProbesHolds` | src/manager.rs:173-177 | A tick over all probes, in or out of recovery, keeps the invariant of the proxy. |
| `ManagerModel.OnlyHolder` | src/manager.rs:153-160 | With unique ids, removing from the first probe that has the session is removing it everywhere. |
| `Managers.Manager.HandleNewSessionReq` | src/manager.rs:179-259 | The object ends in the state, and returns the error, that the specification gives; the sessions an exclusive request finds in its way have all come to their end, each shut down, or dropped as it was if its probe is lost. |
| `Managers.Manager.ShutdownSession` | src/manager.rs:153-162 | Looks for a probe that has the session, removes it there, prunes, and so reaches the specified state of all probes. |
| `Managers.Manager.PruneInactiveProbes` | src/manager.rs:164-171 | Keeps exactly the probes with sessions, untouched. |
| `Managers.Manager.ServiceProbes` | src/manager.rs:173-177 | Services every probe once, each independent of the others. |
| `Managers.Manager.Shutdown` | src/manager.rs:145-151 | Leaves no probe, and every session of every probe that was there has come to its end: shut down, or dropped as it was if its probe is lost. |
| `ProbeProofs.ServiceInvariant` | src/manager.rs:367-426 | A service call of any kind keeps the invariant of a probe. |
| `ProbeProofs.RequestInvariant` | src/manager.rs:212-256 | A request, accepted or refused halfway, keeps the invariant of a probe. |
| `ProbeProofs.RemoveInvariant` | src/manager.rs:311-325 | A removal, in or out of recovery, keeps the invariant of a probe, including what the gate still covers. |
| `ProbeProofs.CheckHealthInvariant` | src/manager.rs:340-351 | Entering recovery with sessions in any state keeps the invariant of a probe. |
| `ProbeProofs.RecoverInvariant` | src/manager.rs:353-365 | A successful recovery starts with every scheduled session still ahead in the schedule. |
| `ProbeProofs.NothingIsLeft` | src/manager.rs:302-309 | Shutting down all sessions in whatever order leaves both counters of every core at zero and no catch on, except where switching it off failed or was impossible. |
| `ProbeProofs.UpdateKeepsHandles` | src/rtt_session.rs:353-404 | An update either keeps the handles a running session has or takes new ones from the present debug session. |
| `ProbeRuns.FirstAndLastAreTold` | src/shared_state.rs:28-60 | In every reachable state the first session to raise a counter is told so, and the last holder of the catch is told that it is the last. |
| `ProbeRuns.CleanRunLeavesNoCatch` | src/rtt_session.rs:228-238 | On every run whose stops reach the core and can switch the catch off, and which removes no holder from a lost probe, a catch that is on always has a holder. |
| `ProbeRuns.OrphanedOnlyByFailedStop` | src/rtt_session.rs:223-238 | An update leaves a catch without responsibility only if its stop could not reach the core or not switch it off. |
| `ProbeRuns.LooksDeadMeans` | src/manager.rs:399-423 | In every reachable state the four-part health test is the same as: no session runs and some session stopped because it could not attach to its core. |
| `ProbeRuns.GateCoverage` | src/manager.rs:311-403 | From any point of a run with requests, service calls and removals: every session then pending and not removed has been updated when the gate opens, if and only if the gate sufficed after the last removal. |
| `ProbeRuns.RecoveryCoverageIff` | src/manager.rs:311-403 | From a recovery on, removals included: every session scheduled when servicing resumed and not removed has been updated when the gate opens, if and only if the gate sufficed after the last removal. |
| `ProbeRuns.RecoveryCoverage` | src/manager.rs:349-403 | After a recovery, when the gate opens without a removal in between, every session that was scheduled when servicing resumed has been updated, whatever was added meanwhile. |
| `ProbeRuns.RemovalAtGate` | src/manager.rs:317-323 | What a removal does to the gate: it still suffices if and only if nothing is pending or the sessions left from the resumption number at most what the gate counts. |
| `ProbeRuns.RemovalCanSkipASession` | src/manager.rs:317-323 | With the third of three sessions alone pending and a gate of one, removing the first lets the next update open the gate while the third is still pending. |
| `Scenarios.SessionIsSkippedOnARun` | src/manager.rs:311-403 | A run from a new probe that gets there: three requests, a recovery, two service calls, a removal; then the gate opens, and a session that is still there has not been updated since servicing resumed. |
| `Scenarios.TwoServedAfterRecovery` | src/manager.rs:349-391 | Any lost probe with three sessions reaches the state in which a removal skips one, by its recovery and two service calls. |
| `ProbeRuns.ServiceIsOneCall` | src/manager.rs:373-385 | A service call in service is exactly one update of the scheduled session with its own core's counters and the present debug session; every other session, and every session of a lost probe, is left alone. |
| `ProbeRuns.ServiceOnCores` | src/manager.rs:367-426 | A service call works on the scheduled session's core only, and on no core of a lost probe; entering recovery zeroes the counters of every core. |
| `ProbeRuns.ServiceCountsUpdate` | src/manager.rs:373-403 | In service with sessions, a call makes one update, takes one off the gate and moves on to the next slot; a health check is made exactly when due, and the next is due exactly one interval later. |
| `ProbeRuns.RecoversIff` | src/manager.rs:353-365 | A lost probe is back in service, with a new debug session, if and only if a setup is due and works; a setup is tried exactly when due, the next is due exactly one interval later, and sessions and cores are left alone. |
| `ProbeRuns.EpochCountsSetups` | src/manager.rs:353-365 | Over every run the number of the present debug session counts the setups that worked. |
| `ProbeRuns.RequestRegisters` | src/manager.rs:236-256 | A request for a free channel registers its core, new counters at zero, even if it is then refused; a request for a taken one changes nothing; an accepted one puts its session last in the schedule. |
| `ProbePacing.ExactRoundRobin` | src/manager.rs:373-391 | Over any k calls in service, the session at a position is updated once per full round and once more if the partial round passed it. |
| `ProbePacing.RoundRobinIsFair` | src/manager.rs:373-391 | Update counts of any two sessions differ by at most one, and within n calls every session is updated. |
| `ProbePacing.RunIsPaced` | src/manager.rs:340-403 | Over every run of a probe, removals included, recoveries and setup attempts stay spaced. |
| `ProbeExact.EntersRecoveryIff` | src/manager.rs:367-423 | A service call enters recovery if and only if, before it, the check is due, the gate waits for at most this update, no other session runs and the scheduled one will not be left running, and another session is lost or the scheduled one will be. |
| `ProbeExact.NoHoldersIff` | src/manager.rs:340-351 | Recovery is then entered with no holder if and only if no other session is attached and the scheduled one will not be left so. |
| `ProbeExact.StepExactIff` | src/shared_state.rs:28-60 | With exact counters, any operation of a probe leaves them exact if and only if it is fair, judged before it: the session concerned does not stop without a count that others hold, and recovery is not entered while a session is attached. |
| `ProbeExact.FairRunIsExact` | src/shared_state.rs:28-60 | On every run of fair operations both counters equal their numbers of holders at every point, and every catch somebody holds is on. |
| `ProbeExact.ExactIffFair` | src/shared_state.rs:28-60 | A run that starts with exact counters has exact counters at every point if and only if every single operation is fair. |
| `ProbeExact.AttachedSessionsKeepBreakpoints` | src/rtt_session.rs:447-451 | With exact counters a session that initializes does not clear out a core on which another one is attached or running. |
| `ProbeStates.ProbeState.Service` | src/manager.rs:367-426 | One service call of the object reaches exactly the specified state of schedule, gate, sessions, counters, cores and limiters. |
| `ProbeStates.ProbeState.UpdateScheduled` | src/manager.rs:373-385 | Updates the scheduled session in place with the counters registered for its core, and counts the gate down without passing zero. |
| `ProbeStates.ProbeState.CheckHealth` | src/manager.rs:393-424 | Asks its limiter first and enters recovery exactly when it fired, the gate is open and the probe looks dead. |
| `ProbeStates.ProbeState.EnterRecovery` | src/manager.rs:340-351 | Drops the debug session, zeroes the counters of every core, restarts the schedule and raises the gate to the number of sessions. |
| `ProbeStates.ProbeState.Recover` | src/manager.rs:353-365 | Tries a setup at most once per retry interval and takes up a new debug session if it works. |
| `ProbeStates.ProbeState.SharedStateForCore` | src/manager.rs:327-332 | Hands out the counters registered for a core, new ones at zero on first use. |
| `ProbeStates.ProbeState.AddRttSession` | src/manager.rs:334-338 | Files the session under its id and puts it at the end of the schedule. |
| `ProbeStates.ProbeState.Request` | src/manager.rs:212-258 | Refuses a taken channel, then registers the core, then refuses during recovery or on an I/O error, and otherwise adds a session that shares the counters registered for its core. |
| `ProbeStates.ProbeState.ShutdownRttSession` | src/manager.rs:311-325 | Shuts the session down if there is a debug session to do that with, and takes it out of map and schedule. |
| `ProbeStates.ProbeState.ShutdownAllRttSessions` | src/manager.rs:302-309 | Takes every session out once, in some order, and gives the final value of each: shut down, or unchanged if the probe is lost; the schedule stays behind, stale. |
| `ProbeModel.IndexOf` | src/manager.rs:318-319 | The first position of an id in the schedule. |
| `SessionProofs.LifeIsSound` | src/rtt_session.rs:276-334 | Whatever siblings do to the counters and the core in between, every sequence of updates and shutdowns keeps a session's stream grammar, fidelity, command grammar, stop reasons and number of runs. |
| `SessionProofs.UpdateIsSound` | src/rtt_session.rs:276-334 | One update of a session in any state keeps all of these. |
| `SessionProofs.HandleErrorIsSound` | src/rtt_session.rs:313-330 | After any failed update stopping or shutting down restores them; in particular bytes are missing only if a delivery failed, and then the session is shut down. |
| `SessionDecisions.UpdateAnswers` | src/rtt_session.rs:313-330 | No update shuts a session down without an answer, or an attempt at one, to its client. |
| `SessionDecisions.LifeAnswers` | src/rtt_session.rs:313-330 | Nor does a whole life in which nobody shuts the session down from outside. |
| `SessionProofs.StopFollowsItsStart` | src/rtt_session.rs:239-246 | Over every life, a Stop written when stopping comes directly after the one Start of the attach attempt that opened the stopped Run episode. |
| `SessionProofs.EpisodeHasItsAttempt` | src/rtt_session.rs:361-395 | A Run episode is opened by an attempt that opened no other, whose Start is then the last command, and nothing changes that as long as the episode lasts. |
| `SessionEffects.EveryEpisodeIsStopped` | src/rtt_session.rs:239-246 | In every life whose stops reach the core and can write, every Run episode that has been left has its Stop, right after the Start of the attempt that opened it. |
| `SessionEffects.StopIsWrittenIff` | src/rtt_session.rs:239-246 | Stopping or shutting down writes a Stop if and only if the session runs with a down channel, the core can be reached and the write works; it writes nothing else. |
| `SessionEffects.StopDisarmsIff` | src/rtt_session.rs:248-257 | Of all breakpoints, a stop removes exactly the session's own, if it reaches the core and clearing works. |
| `SessionEffects.StopSwitchesCatchOffIff` | src/rtt_session.rs:228-237 | A stop switches the catch off if and only if the counter says it was the last holder's, the core can be reached and it obeys. |
| `SessionEffects.StopForgetsIdling` | src/rtt_session.rs:223-230 | A stop lowers both counters by one unless they are zero, and sets the session to read at the short interval again. |
| `SessionEffects.SetupErrorIs` | src/rtt_session.rs:426-495 | Which error a failed setup reports, for every way it can fail. |
| `SessionEffects.AttachErrorIs` | src/rtt_session.rs:497-563 | Which error a failed attach attempt reports, for every way it can fail. |
| `SessionEffects.RunErrorIs` | src/rtt_session.rs:565-648 | Which error a turn in Run reports, for every way it can fail. |
| `SessionEffects.FailedSetupReports` | src/rtt_session.rs:313-330 | A failed setup leaves a recovering session waiting with that error and silent; any other is shut down and its client, if unanswered, is told exactly that error. |
| `SessionEffects.FailedAttachReports` | src/rtt_session.rs:361-387 | The same for an attempt that fails for good, or whose success cannot be told; one that works tells an unanswered client, with the session's own id. |
| `SessionEffects.FailedRunReports` | src/rtt_session.rs:397-413 | The same for a failure in Run; nothing but a failed delivery adds to what the client got. |
| `SessionEffects.StoppingConditionIs` | src/rtt_session.rs:601-643 | A running session stops because of its core if and only if this turn sees that the core has left the running state: at a breakpoint halt with the program counter cut to its width as the address, otherwise for a reset. |
| `SessionEffects.TurnMoves` | src/rtt_session.rs:579-599 | A turn that reads takes from the front of what is waiting what fits into the host buffer, as configured or 1024 bytes, and hands exactly that to the client, or the part a failing write got through. |
| `SessionEffects.SetupLeaves` | src/rtt_session.rs:445-492 | Exactly which catch and breakpoints an initialization leaves in the core, however far it got. |
| `SessionEffects.AttachLeaves` | src/rtt_session.rs:549-556 | An attach attempt that gets that far enables the catch if nobody holds it, and touches no breakpoint. |
| `SessionEffects.RunBeginsDue` | src/rtt_session.rs:390-395 | A session that enters Run has its first read and its first looks at the core due at once. |
| `SessionEffects.LifeKeepsPace` | src/rtt_session.rs:127-139 | Over every life a session keeps its intervals, in numbers, and outside Run is set to read at the short one. |
| `SessionEffects.NewKeepsPace` | src/rtt_session.rs:100-176 | A new session is in Init under its own configuration, has said and written nothing, and none of its clocks keeps it waiting. |
| `SessionEffects.PaceIsExact` | src/rtt_session.rs:290-393 | Attempts, reads and both kinds of looks are due again exactly when their interval has passed since the last one. |
| `SessionEffects.OtherClocksKeep` | src/rtt_session.rs:345-424 | A step moves no clock that it does not ask. |
| `SessionEffects.TurnsAreCounted` | src/rtt_session.rs:345-424 | Every attempt, read and look is counted, and nothing else is. |
| `SessionProofs.AttachCommandsFit` | src/rtt_session.rs:519-547 | Whatever write fails, the commands of an attach extend the command grammar, and a complete attach ends with Start. |
| `SessionTiming.UpdateMovesForward` | src/rtt_session.rs:345-424 | An update only moves up the order Init, RttAttach, Run, Stopped, Shutdown, except from Stopped to Init with auto-recovery; the temporary Init is never seen. |
| `SessionTiming.LifeNeverGoesBack` | src/rtt_session.rs:209-334 | Over a whole life without auto-recovery the rank never falls, and at equal rank the state is the same. |
| `SessionTiming.ShutdownIsFinal` | src/rtt_session.rs:209-221 | After Shutdown nothing about a session changes any more. |
| `SessionTiming.AttachAttemptsAreBounded` | src/rtt_session.rs:349-378 | In every life an RttAttach episode makes at most T/20 + 2 attempts, or one without a timeout. |
| `SessionTiming.ReadsAreBounded` | src/rtt_session.rs:574-591 | At every moment of a Run episode of length T at most T/poll + T/idle + 2 reads were made, although the limiters keep separate clocks. |
| `SessionTiming.StatusChecksAreBounded` | src/rtt_session.rs:603-605 | At every moment of a Run episode of length T ms the core was looked at for a stopping condition at most T/50 + 1 times. |
| `SessionTiming.RecoveryChecksAreBounded` | src/rtt_session.rs:290-311 | At every moment of a Stopped episode of length T ms at most T/50 + 1 looks for recovery were made. |
| `SessionSharing.UpdateShares` | src/rtt_session.rs:276-424 | Whatever fails in the middle of an update, the counters stay bounded by the holders and a catch stays accounted for. |
| `SessionSharing.ShutDownReleases` | src/rtt_session.rs:209-273 | A shutdown keeps the same, whichever state it starts from. |
| `SessionSharing.UpdateExactIff` | src/rtt_session.rs:223-229 | With exact counters, an update leaves them exact if and only if it does not stop a session that lacks a count others hold; and then a catch others hold stays on. |
| `SessionSharing.ShutDownExactIff` | src/rtt_session.rs:209-229 | From exact counters a shutdown loses exactness if and only if the session, as it is before the call, lacks a count others hold. |
| `SessionSharing.CountsCanBeTaken` | src/rtt_session.rs:426-430 | The step that does it: with both counters at one, a session that cannot reach its core leaves both at zero. |
| `Scenarios.CountsAreTakenOnARun` | src/rtt_session.rs:223-229 | A run from a new probe: two requests for one core, the bootloader is set up and the counters are exact; then the other session cannot reach the core, and both counters are zero while the bootloader is attached. |
| `SessionSharing.BreakpointsOfOthersSurvive` | src/rtt_session.rs:447-451 | While the counter is positive, an update leaves every breakpoint alone that is not the session's own. |
| `SessionSharing.AttachOnlyRetriesUncounted` | src/rtt_session.rs:497-502 | The one error that is retried comes before counters, core and down channel are touched. |
| `SessionDecisions.InitMovesOnIff` | src/rtt_session.rs:426-495 | A session leaves Init for RttAttach if and only if everything the setup needs, given the counters, works; its breakpoint is then armed and its first attach attempt is due. |
| `SessionDecisions.AttachMovesOnIff` | src/rtt_session.rs:355-396 | A session enters Run if and only if an attempt is due and works and the client has been or can be told; it stays in RttAttach if and only if no attempt is due or the control block is missing and the timeout has not passed. |
| `SessionDecisions.RunStaysIff` | src/rtt_session.rs:565-648 | A session stays in Run if and only if the core is reachable, a due read works, data reaches the client, and without data no stopping condition is seen; what it read is recorded either way. |
| `SessionDecisions.StoppedMovesOnIff` | src/rtt_session.rs:290-311 | A stopped session returns to Init if and only if it may recover, a look is due and the core answers; it looks exactly when due, and then not again before the interval has passed. |
| `SessionDecisions.ExactnessIsLostIff` | src/rtt_session.rs:426-556 | From exact counters an update loses exactness if and only if the session fails before it raised a counter that others hold: in Init before the first counter, or before the catch, or in RttAttach on a due attempt that fails for good before the catch. |
| `SessionDecisions.LeftIff` | src/rtt_session.rs:276-424 | Whether an update leaves a session attached, running, or stopped for want of its core, as three conditions on the state before it and on what the update learns. |
| `SessionControl.HandsOffIff` | src/rtt_session.rs:223-563 | An update leaves its core's catch, breakpoints and control untouched and asks nothing of it if and only if there is no reset, nothing to clear, no catch to enable, no start and no breakpoint to set, and the update comes to no stop that has something to do. |
| `SessionControl.LifeHandsOffIff` | src/rtt_session.rs:209-563 | Over a whole life a session asks nothing of its core if and only if every single call keeps its hands off. |
| `SessionControl.CompanionHandsOffIff` | rtt-proxy/src/lib.rs:86-88 | An update of a companion drives nothing on its core if and only if no reset is configured, its bootloader has cleared the core and holds the catch, it arms no breakpoint, and it comes to no stop that has something to do. |
| `SessionControl.CompanionLifeHandsOffIff` | rtt-proxy/src/lib.rs:86-88 | The same over the whole life of a companion, update by update. |
| `Scenarios.CompanionDrivesItsCore` | rtt-proxy/src/lib.rs:86-88 | A run from a new probe on which a companion without `reset` enables the catch, arms its breakpoint and, having stopped at a reset, starts the core. |
| `Scenarios.BootloaderDoesNotExclude` | rtt-proxy/src/lib.rs:80-84 | On every probe a request for the core of an attached bootloader is accepted if its channel is free, and its session joins the schedule. |
| `Scenarios.BootloaderDoesNotSuspend` | rtt-proxy/src/lib.rs:80-84 | When a sibling's turn comes it leaves Init if and only if its own setup works, and it leaves the core alone if and only if it keeps its own hands off; the bootloader's session is neither consulted nor changed. |
| `Scenarios.ApplicationIsSetUpBesideBootloader` | rtt-proxy/src/lib.rs:80-84 | A run from a new probe that ends with both sessions attached to one core. |
| `SessionControl.InitControls` | src/rtt_session.rs:433-481 | Initialization asks for a reset if and only if one is configured and the core answers, then for at most one start, never as a companion, and on success exactly when the core was reset or found halted. |
| `SessionControl.RunControls` | src/rtt_session.rs:258-268 | Outside Init a session asks its core for no reset and no start, except for one start when it stops at a breakpoint or reset and can reach the core. |
| `SessionControl.CompanionResetsIfAsked` | src/rtt_session.rs:433-475 | A companion that reaches its core resets it if and only if `reset` is configured, and never starts it during initialization. |
| `RttSessions.RttSession.Update` | src/rtt_session.rs:276-334 | One update of the object, its counters and its core reaches exactly the specified state. |
| `RttSessions.RttSession.UpdateInner` | src/rtt_session.rs:345-424 | The state is taken out, Init put in its place, and on every exit the specified state is back. |
| `RttSessions.RttSession.Stop` | src/rtt_session.rs:223-273 | Lowers both counters, works on the core as far as it can reach it, and stops; does nothing when already stopped. |
| `RttSessions.RttSession.ShutDown` | src/rtt_session.rs:209-221 | Stops and then is shut down, once. |
| `RttSessions.RttSession.DoInit` | src/rtt_session.rs:426-495 | Counters, core and error after initialization, for every exit. |
| `RttSessions.RttSession.DoRttAttach` | src/rtt_session.rs:497-563 | Counters, core, commands and error after an attach attempt, for every exit. |
| `RttSessions.RttSession.DoRun` | src/rtt_session.rs:565-648 | Limiters, bytes read into the reused buffer and handed on, error and stopping condition of one turn in Run. |
| `RttSessions.RttSession.ReadUpChannel` | src/rtt_session.rs:579-580 | The front of the reused host buffer holds exactly the bytes of this read. |
| `SharedStates.SharedState.IncCatch` | src/shared_state.rs:39-51 | Adds one, wrapping as the machine word does, and says whether the counter was zero. |
| `SharedStates.SharedState.DecCatch` | src/shared_state.rs:44-60 | Takes one off but never leaves the wrapped value, and says whether the counter was one or zero. |
| `SharedStates.SharedState.DecClear` | src/shared_state.rs:34-60 | The same for the other counter. |
| `SharedStates.SharedState.Reset` | src/shared_state.rs:23-26 | Both counters are zero. |
| `SharedStates.CountsWrap` | src/shared_state.rs:49-60 | Counting up and down wrap around the 64-bit word and undo each other; what a counter keeps differs from the wrapped value only when counting down from zero. |
| `RateLimiters.RateLimiter.Check` | src/rate_limiter.rs:22-30 | Fires exactly when the limit has passed since it last fired, and then starts over. |
| `RateLimiters.FiringBound` | src/rate_limiter.rs:22-30 | However often and whenever it is asked, a limiter that is not reset fires at most elapsed/limit + 1 times. |
| `RateLimiters.FirstCheckAfterResetFires` | src/rate_limiter.rs:17-20 | After a reset the first check always fires. |

## Left out

- probe-rs, USB and registers: each call is an outcome the code branches on; register reads that
  fail alike are one outcome, except where a call on the core separates them.
- A core that loses its catch or its breakpoints by itself (power cycle), and what other tools do
  to it while its probe is open: the core's record is what was found when the probe was opened and
  what the proxy asked for and was told since.
- Attaching the RTT region is taken as the only source of the error that is retried: reading the
  channel mode or writing a command fails as some other RTT error. `AttachOnlyRetriesUncounted`
  and the counter bound after a retry depend on that.
- How much a read of the up channel returns is up to the RTT library; the model takes the front
  of what is waiting, as much as fits into the host buffer.
- The server's accept loop, signal handling, threads and channels: operations arrive in any order;
  nothing is claimed about ticks getting through, since operations take precedence.
- A request whose configuration cannot be read: it gets an error and never reaches the manager.
- Failing to clone the client stream in the manager thread ends the thread; that exit is not
  modelled.
- JSON framing: writing a status message either succeeds as a whole or writes nothing.
- The wire format and checksum of trace commands: only which command is sent.
- Metrics, log messages and session names: no decision depends on them.
- Choosing the probe from a selector, opening it and checking its voltage: one outcome each
  (`found`, `setupOk`); the configuration an already open probe keeps is not compared.
- Configuration fields nothing reads (`setup_on_breakpoint_address`, `no_data_stop_timeout_ms`).
- Reuse of a session id: ids are random UUIDs, and a request with an id in use is not an operation
  of the model.
- The order in which a map yields its entries: any order is allowed and none is assumed.
- The 32-bit range of configured times and sizes: the model takes any natural number.
- SharedStates.SharedState.IncCatch: the counter is taken as 64 bits wide, as on the hosts the
  proxy is packaged for.
- ManagerProofs.RecoveriesAreSpaced: for a probe as long as it stays open; a probe that is pruned
  and opened again starts a new history.
