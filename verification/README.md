# SparkRing verification

This project models the control protocols with which SparkRing changes a cluster of
hosts, and proves what they promise over whole histories: crashes, failures, lost
replies, repeated and concurrent invocations included. `dafny verify dfyconfig.toml`
checks all of it.

## What is modelled

**The deployment engine** (`Json`, `Plan`, `EngineTrace`, `EngineOutcomes`, `EngineSteps`,
`Engine`) runs sealed plans phase by phase with a durable receipt, preflight, a worker pool
and resumption. `EngineTrace` states the rule each observable event has to follow and derives
every history-wide promise from the rules; `EngineOutcomes` tells what the receipt records by
the replies that came back. The class `Engine.Controller` is the program, and its contracts
say that it only ever emits rule-following events, for any replies, any schedule of the pool
and a crash before any observable step. `RuntimePlan` builds the lifecycle plans (up, start,
stop, down, recover), spells out what they send, and composes their shape with the engine's
barriers; `RuntimeOrder` is the cluster-level ordering of what is sent. `EngineHistories`
holds concrete histories that show where promises end.

**Data networking** has three layers. `NetworkProfiles` plans NetworkManager changes per
port and shows that the reverse steps undo them. `Hairpin` models a ConnectX function,
of which only the shown values and counters can be read, the rule that infers from them
what is in use, and the planned driver steps; `NetworkPlanner` lifts these to all functions
of a host, `NetworkHost` puts both kinds of steps into the one plan and the one interleaved
reverse list of a host, and `NetworkRounds` repeats planning over all hosts. `NetworkGuard`,
`NetworkJournal` and `NetworkPlan` are the helper that runs on each host with a journal
of its own, and the joint history of that helper and the engine.

**Checkpoints**: `ReceiptCache` is the stat-keyed cache of file hashes next to hard links,
renames and outside writers, with every look at the disk at its own moment; `Adoption`
accounts for local copies; `Pacing` is the token bucket of downloads; `Fanout` the archive
chain.

**Smaller protocols**: `StagingLock` (concurrent stagings over lock directories),
`StartRanks` (ranked start with rollback), `ShapeSweep` (compile buckets and the
exact-length search).

Commands, clocks, the network and schedules are parameters: a `World` gives the answer to
every question by step number, so a contract that mentions no property of it holds for all
of them.

## What the code does where its text says otherwise

Each item names the lemma that gives the exact condition and the one that gives an input.

- The network helper's comment says the configuration is recorded only once every planned
  address is live. It is recorded either way: unsettled exactly when thirty probes in a row
  were (`NetworkJournal.Helper.Settle`, `Helper.Conclude`; `RecordsUnsettled`).
- Plan validation does not exclude colons in host names, so two actions of different phases
  can share a receipt key; then the later one is never sent and the plan still completes. A
  completion covers the plan exactly when keys are distinct. With the program's own runner
  that is always so, since it refuses such hosts and a plan with one cannot complete; it
  takes a runner supplied by the caller (`EngineTrace.CompletionCoversPlan`,
  `OwnRunnerCoversPlan`; `EngineHistories.SharedKeyCompletes`).
- A plan's identity leaves out whether driver steps were deferred, so the network helper
  accepts the verification of a plan some of whose commands never ran, when the plan that
  owns the journal lists others. The accepted plan's own commands ran exactly when both list
  the same ones; under the engine, which starts from an unused receipt path and had it applied first,
  they always do (`NetworkJournal.AcceptedMeansExecuted`, `NetworkPlan.SucceededMeansExecuted`;
  `NetworkJournal.AcceptsUnrunPlan`).
- A receipt's `running` can name actions that were never sent and never will be: after a
  crash between the save that records a phase and the first command, after an exception in
  one worker that cancels its siblings, or after a failed renewed verification, which saves
  the siblings sorted before it. Such an action is sent exactly when it is sent in the same
  invocation (`EngineTrace.SentExactlyIfRecordedAndSent`; `EngineHistories.CancelledFollows`,
  `RunningNeverSent`). Write-ahead therefore holds in one direction only.
- The in-effect rule's documented exception, manual devlink use, has a second way in: the
  planner's own rollback followed by a new plan that stops before its restart
  (`Hairpin.InEffectSound`; `ManualUseMisleads`, `RollbackLosesTrust`).
- A flag the inventory does not know is restored as off, so a rollback restores a profile
  exactly when the unknown flags were off (`NetworkProfiles.UndoOne`, `HostUndoExactly`;
  `UnknownFlagIsLost`).
- A refreshed receipt is right exactly if nobody wrote to the linked file between the two
  looks around the link while keeping size and modification time
  (`ReceiptCache.Installer.PlaceLink`; `LinkMisleads`).
- A launch whose name is held by another launch's container counts as rolled back without a
  report. Every launch is removed or reported exactly when no rollback finds that
  (`StartRanks.CoveredExactly`; `TakenIsUnreported`, `UnreportedLaunch`).
- Waiting for the API without a rank 0 raises an exception after every rank was started,
  and nothing is rolled back (`StartRanks.Starter.Start`, outcome `NoHead`).
- A checked and promoted archive can still be changed by the download command of an earlier
  run that timed out, because the archive is the same file under a second name. A file stays
  what it is exactly when no such command has it open (`Fanout.StaysExactly`;
  `LeftOverCorrupts`), and none has, over whole runs, when none was left over before and every
  command ends in time (`Fanout.Fleet.Execute`, `Repeat`).
- The sweep can skip the arm of a bucket that some servable prompt compiles, because only the
  bucket's longest prompt is compared with the model length. It skips one exactly when the
  target of the bucket of the limit itself is too long (`ShapeSweep.LeftOutExactly`;
  `BucketLeftOut`). Another arm may still send a prompt of that bucket.

## Assumptions

- SHA-256 is injective; JSON text is a document.
- `runtime/common/process_lock` gives mutual exclusion per receipt path; saving a receipt or
  a journal replaces the file in one step.
- A change of an inode's content or times gives it a change time it never had before.
- A driver restart keeps the hardware offload flag; a failed one leaves the values in use.
- An active NetworkManager profile belongs to its device, the inventory lists every profile,
  and each device runs with its profile's settings when the plan is made. NetworkManager
  commands take effect or fail as a whole.
- NetworkManager commands do not change devlink parameters or offload, and driver commands
  do not change saved profiles or active connections.
- A Docker container keeps its label, and its identifier is not given to another one.
- Staging tokens are distinct and nobody else removes a lock directory.

## Model

| member | source | states |
|---|---|---|
| Json.MatchesReflexive | scripts/deploy_engine.py:130-146 | every JSON document satisfies itself as an expectation, through nested objects and lists |
| Json.MatchesTransitive | scripts/deploy_engine.py:130-146 | a document that satisfies a stronger expectation satisfies every weaker one, including list membership and the rule that an empty list means empty |
| Json.MatchesAllowsExtras | scripts/deploy_engine.py:130-146 | extra object fields and extra list records are accepted, and matching is not symmetric |
| Json.MatchesByPath | scripts/deploy_engine.py:130-146 | a document matches exactly if it has, at every path of object fields of the expectation, what is asked for there: the very text, number or flag, an empty list for an empty one, a matching item for every wanted record |
| Plan.VerifiedWeaker | scripts/deploy_engine.py:115-127 | a reply that passes a check passes the same check with any weaker expected document |
| Plan.VerifiedExactly | scripts/deploy_engine.py:115-127 | a check accepts exactly the certain replies without an error whose output is the text asked for and whose document has, at every path, what is asked for there |
| Plan.ValidateActions | scripts/deploy_engine.py:36-55 | a phase is accepted only with distinct hosts, sendable argument vectors, explicit risks and verifications; a refusal names a real defect |
| Plan.ValidatePlan | scripts/deploy_engine.py:26-55 | accepts exactly the plans that meet every rule and carry their own digest; a refusal names a real defect |
| Plan.SealThenChange | scripts/deploy_engine.py:15-30 | sealing a well-formed body gives a valid plan, and no changed body passes under the old seal |
| Plan.KeyInjective | scripts/deploy_engine.py:229 | `phase:host` receipt keys are unambiguous when hosts have no colon |
| Plan.KeyInjectiveOnHost | scripts/deploy_engine.py:229 | within one phase, receipt keys are as distinct as hosts |
| EngineTrace.InvStep | scripts/deploy_engine.py:228-303 | every rule-following event keeps: a changing action that was ever sent is recorded in a state from which it is not sent again |
| EngineTrace.Invariants | scripts/deploy_engine.py:158-310 | that invariant, and phase order, hold after every history of events |
| EngineTrace.AtMostOnce | scripts/deploy_engine.py:228-299 | over every history with crashes, failures and resumptions, a changing action's argument vector is sent at most once |
| EngineTrace.ArgvAtMostOnce | scripts/deploy_engine.py:228-299 | the same told by what is sent: a changing action whose argument vector is not also one of its checks or its verification has it sent at most once |
| EngineTrace.WriteAhead | scripts/deploy_engine.py:270-299 | when an argument vector is sent the receipt on disk already says `running`, and a changing action stays running, succeeded or uncertain on disk ever after |
| EngineTrace.PhaseBarrier | scripts/deploy_engine.py:214-303 | before any command of a phase, every action of every earlier phase was executed and verified, or verified again, in the same invocation |
| EngineTrace.PhasesInOrder | scripts/deploy_engine.py:214-303 | when a command of a phase is sent, the earlier phases have had their rounds one after the other in the same invocation, each a command of the phase followed by the confirmation of all its actions |
| EngineTrace.EarlierActionsSent | scripts/deploy_engine.py:228-303 | from an unused receipt path and with distinct keys, a command of a phase is sent only after the argument vector of every action of every earlier phase was |
| EngineTrace.PreflightFirst | scripts/deploy_engine.py:227-246 | before any argument vector of a phase is sent, each action of the phase passed each of its checks in this invocation or is recorded as succeeded and not being run |
| EngineTrace.CompleteMeansAllDone | scripts/deploy_engine.py:296-309 | a receipt saved as complete records every action as succeeded, each confirmed in the invocation that saved it |
| EngineTrace.CompletionTimeIsFinal | scripts/deploy_engine.py:207-212 | a completion time, known or explicitly unknown, is never replaced or removed |
| EngineTrace.UnknownIsFinal | scripts/deploy_engine.py:231-234 | an outcome found running or uncertain stays so for ever; nothing of its action or of a later phase is sent again |
| EngineTrace.FailedMeansReadOnly | scripts/deploy_engine.py:277-285 | `failed` is newly recorded under a key only when a read-only action with that key was sent in this invocation; with distinct keys that is the action itself |
| EngineTrace.ColonFreeHostsGiveDistinctKeys | scripts/deploy_runtime.py:109-113 | hosts without colons, as the runtime planner demands, give every action its own receipt key |
| EngineTrace.SharedKeyHidesAction | scripts/deploy_engine.py:228-236 | of two actions with one receipt key, the one in the later phase is never sent |
| EngineTrace.SuccessWasSent | scripts/deploy_engine.py:274-299 | from an unused receipt path, a recorded success stands for an argument vector that was sent |
| EngineTrace.SuccessWasConfirmed | scripts/deploy_engine.py:274-299 | from an unused receipt path, a recorded success stands for a reply that confirmed an action with that key |
| EngineTrace.SuccessAnsweredArgv | scripts/deploy_engine.py:274-299 | from an unused receipt path, a recorded success stands for a successful answer to an argument vector with that key, however often it was only verified again since |
| EngineTrace.CompletionCoversPlan | scripts/deploy_engine.py:228-309 | for any runner, a saved completion means every action was sent exactly when no two actions share a receipt key |
| EngineTrace.OwnRunnerCoversPlan | scripts/deploy_engine.py:59-67 | with the program's own runner, which refuses hosts with a colon, a saved completion always means that no keys were shared and every action was sent |
| EngineTrace.SentExactlyIfRecordedAndSent | scripts/deploy_engine.py:270-299 | a changing action newly recorded as running is ever sent exactly when it is sent in the invocation that recorded it |
| EngineTrace.ClosedStays | scripts/deploy_engine.py:228-299 | with distinct keys, a changing action's record never becomes one from which it could be sent again |
| EngineOutcomes.RecordedOutcome | scripts/deploy_engine.py:274-299 | with distinct keys, what is newly recorded of a sent action is decided by the replies in the history: `failed` exactly for a read-only action with a certain non-zero return, `uncertain` exactly for an uncertain reply, a non-zero one of a changing action, or a verification that was not accepted, and `succeeded` otherwise |
| EngineOutcomes.RecordedFailure | scripts/deploy_engine.py:237-269 | a newly recorded failure names a check or a renewed verification of that action which was answered in the same invocation and not as asked |
| EngineHistories.SharedKeyCompletes | scripts/deploy_engine.py:149-309 | a valid plan with a colon in a host name and a rule-following history, possible only with a runner supplied by the caller, that completes without one of its changing actions ever having been sent |
| EngineHistories.CancelledFollows | scripts/deploy_engine.py:270-299 | a rule-following history in which a runner raises, so that a sibling saved as running is never sent |
| EngineHistories.RunningNeverSent | scripts/deploy_engine.py:228-299 | whatever follows that history, the sibling stands as running and is never sent |
| Engine.DoneFoundNothingUnknown | scripts/deploy_engine.py:231-234 | an invocation after which everything is recorded as succeeded had found no unknown outcome |
| Engine.Controller.Save | scripts/deploy_engine.py:108-112 | the receipt file is replaced by the one in memory, and the history grows by exactly that save |
| Engine.Controller.CheckOne | scripts/deploy_engine.py:237-246 | an action passes preflight only when each of its checks passed in this invocation; a failed one stops it |
| Engine.Controller.RecordFailure | scripts/deploy_engine.py:240-245 | the failed check of this action is saved together with whatever the receipt in memory holds, siblings sorted as running included |
| Engine.Controller.RunChecks | scripts/deploy_engine.py:227-246 | when preflight passes, every action of the phase passed all its checks in this invocation or had succeeded, and none was left unknown |
| Engine.Controller.RecheckOne | scripts/deploy_engine.py:251-269 | a recorded success is verified again before the phase goes on; a failed recheck is recorded as such and stops with the siblings sorted so far saved as running |
| Engine.Controller.Submit | scripts/deploy_engine.py:247-272 | after sorting a phase, every unfinished action is saved as running and every finished one confirmed again, before anything is sent |
| Engine.Controller.SaveSorted | scripts/deploy_engine.py:268-272 | what was sorted so far is on disk before anything further happens |
| Engine.Controller.StepWorker | scripts/deploy_engine.py:274-294 | each step of each worker, in any interleaving, keeps what its stage claims about the replies: sent, answered well, failed without a change, left uncertain, or verified |
| Engine.Controller.TakeResult | scripts/deploy_engine.py:297-299 | the next finished result is recorded and saved in submission order, keeping the pool's invariant |
| Engine.Controller.MovePool | scripts/deploy_engine.py:296-299 | one move of any worker or of the controller makes progress and keeps the pool's invariant, or ends the invocation |
| Engine.Controller.RunPool | scripts/deploy_engine.py:296-303 | any schedule of the worker pool ends, and the next phase is reached only with every action of this one confirmed and recorded as succeeded; if it stops although every reply was as asked or a refusal of a read-only action, nothing is left unknown |
| Engine.Controller.Drain | scripts/deploy_engine.py:296-299 | after an exception no further result is recorded; what was sent runs to its end |
| Engine.Controller.RunPhase | scripts/deploy_engine.py:214-303 | preflight, submission and pool together keep the history rule-following and end the phase with everything confirmed, or stop |
| Engine.Controller.RunPhases | scripts/deploy_engine.py:214-303 | the phases run in order up to the first that does not pass |
| Engine.Controller.Authorize | scripts/deploy_engine.py:173-189 | refuses exactly when some action reloads a driver, starts or stops a model, or tests hardware without the authorization for just that, and names one |
| Engine.Controller.Review | scripts/deploy_engine.py:170-199 | an invocation is let through exactly when the plan is valid and approved, its risks are authorized, and resumption matches the receipt found; a refusal gives the first of these that fails |
| Engine.Controller.OpenReceipt | scripts/deploy_engine.py:191-213 | the opened receipt keeps all recorded states and any completion time and is saved as in progress |
| Engine.Controller.Finish | scripts/deploy_engine.py:304-310 | completion is saved with every action recorded as succeeded and the first completion time kept |
| Engine.Controller.Execute | scripts/deploy_engine.py:149-310 | a refused call changes nothing and says why; any other extends the history by rule-following events wherever it stops, each reply being the answer to the very argument vector of that action and purpose on its host; with commands that cooperate it completes exactly when no earlier outcome was left unknown; stopped with every reply as asked or a certain error of a read-only action, it leaves no outcome unknown |
| Engine.ResumeAfterRefusals | scripts/deploy_engine.py:149-310 | an invocation stopped only by certain errors of read-only actions is completed by a second one in which every command does what its plan asks |
| Engine.RunHistory | scripts/deploy_engine.py:149-310 | at most once and write-ahead, for any number of invocations with their own plans, options, replies, schedules and crashes |
| EngineSteps.PooledAfterMove | scripts/deploy_engine.py:274-294 | a worker's move leaves every other worker's claims true |
| EngineSteps.PooledAfterTake | scripts/deploy_engine.py:297-299 | recording one result leaves all other workers' claims and records true |
| EngineSteps.PooledToNextPhase | scripts/deploy_engine.py:300-303 | a pool that ended with successes only establishes the next phase's precondition |
| RuntimePlan.BuildRuntimePlan | scripts/deploy_runtime.py:100-625 | a lifecycle plan is built exactly when hosts are four well-formed distinct names, the memory operations are all or none supported and, for up and start, source is staged, and a refusal says which; it passes plan validation, has distinct receipt keys, and its phases, argument vectors, risks, verifications and checks are those written out for the operation |
| RuntimePlan.PlanIsWritten | scripts/deploy_runtime.py:140-501 | the step lists, commands, risks and verifications the builder works with spell out, phase by phase and rank by rank, the literal text of each plan |
| RuntimePlan.HostNameExactly | scripts/deploy_runtime.py:109-113 | hosts are made of letters, digits and four signs, beginning with a letter or digit |
| RuntimePlan.BuildPhases | scripts/deploy_runtime.py:323-501 | the phases appended for each operation are those of its step list, in order, with and without memory operations |
| RuntimePlan.InsertTrusted | scripts/deploy_runtime.py:603-614 | every action of every phase gets the trusted-source check in front |
| RuntimePlan.StepIdsDistinct | scripts/deploy_runtime.py:323-501 | different steps have different phase names |
| RuntimePlan.PhasesForValid | scripts/deploy_runtime.py:615-625 | every lifecycle plan body passes plan validation |
| RuntimePlan.StepsAreBarriers | scripts/deploy_engine.py:214-303 | when a command of one step is sent to any host, every earlier step had its own round on all four hosts, in step order and in the same invocation, and from an unused receipt path each of its own commands has been sent to every rank |
| RuntimeOrder.RecoverSays | scripts/deploy_runtime.py:425-501 | the nine phases of a recovery plan, by name and argument vector |
| RuntimeOrder.RecoverLines | scripts/deploy_runtime.py:425-501 | in a recovery plan only the last phase sends the start of the mesh, only the fifth its stop, each as its own argument vector, and nothing starts a model |
| RuntimeOrder.MeshStopOrder | scripts/deploy_runtime.py:425-501 | `systemctl stop sparkring-mesh.service` is sent to a host only after the round in which every rank reported its model stopped, and from an unused receipt path only after that report was asked of all four |
| RuntimeOrder.RecoverOrder | scripts/deploy_runtime.py:425-501 | `systemctl start sparkring-mesh.service` is sent to a host only after, in this order and in the same invocation, the rounds of mesh stop, cleanup, reset and a second stopped report on all ranks, each sent to all four hosts when the receipt path was unused |
| RuntimeOrder.StopsBeforeStarts | scripts/deploy_runtime.py:425-501 | from an unused receipt path every sending of the mesh stop lies before every sending of the mesh start |
| RuntimeOrder.StopPlansStartNothing | scripts/deploy_runtime.py:425-501 | down and stop plans send no start of either unit |
| RuntimeOrder.StartSays | scripts/deploy_runtime.py:325-424 | the phases of a start plan, by name and argument vector, with and without the memory phases |
| RuntimeOrder.StartOrder | scripts/deploy_runtime.py:325-424 | apart from the trusted-source check, `systemctl start sparkring-mesh-model.service` is sent only by the last phase and with the risk of starting a model, after the round of the mesh gate and the rounds of all phases before it, and from an unused receipt path after each of their commands was sent to every host |
| RuntimeOrder.RisksAreMarked | scripts/deploy_runtime.py:140-501 | exactly the commands that stop a model carry the risk of stopping one, and exactly the command that starts one that of starting it |
| NetworkGuard.SortStable | scripts/deploy_network_run.py:34-36 | sorting connections keeps the order of those with equal keys |
| NetworkGuard.SortOrdered | scripts/deploy_network_run.py:34-36 | the sorted connections are in key order |
| NetworkGuard.SortIgnoresOrder | scripts/deploy_network_run.py:34-36 | every listing order sorts the same exactly when no two different connections share identifier and interface |
| NetworkGuard.RowsCompared | scripts/deploy_network_run.py:20-28 | where two probes list the same devices, the recorded rows agree exactly when the planned devices do in everything but the reload counter |
| NetworkGuard.InterfacesCompared | scripts/deploy_network_run.py:32 | where two probes list the same interfaces, the recorded ones agree exactly when the planned interfaces do |
| NetworkGuard.InterfacesKept | scripts/deploy_network_run.py:32 | the record has exactly the planned interfaces, each as often as it is listed |
| NetworkGuard.FingerprintOf | scripts/deploy_network_run.py:16-37 | the loop that collects device rows computes the fingerprint whose comparison is characterised below |
| NetworkGuard.GuardComparesConfiguration | scripts/deploy_network_run.py:16-37 | with distinct keys, two probes that list the same interfaces and devices have equal fingerprints exactly when management, routes, the planned interfaces, the planned device rows apart from reload counters, and the connections in any order agree |
| NetworkJournal.PlannedReach | scripts/deploy_network_run.py:134-144 | a command is planned to run exactly when no earlier one asks for a stop |
| NetworkJournal.IdleUnlessBusy | scripts/deploy_network_run.py:52-70 | a probe passes as idle exactly when no GPU process is listed, containers are known not to run where GPU processes are unknown, no RDMA user is present or unknown, and a required GPU query was quiet |
| NetworkJournal.SettledExactly | scripts/deploy_network_run.py:149-155 | a probe is settled exactly when every planned address is one of the last interface entry of its name |
| NetworkJournal.Helper.Check | scripts/deploy_network_run.py:86-94 | passes exactly when the host still is as planned and, if there is something to run, a probe shows none of the four kinds of use that forbid it |
| NetworkJournal.Helper.Verify | scripts/deploy_network_run.py:95-110 | accepts exactly a finished journal of this plan on a host whose configuration has not changed since |
| NetworkJournal.AcceptedMeansExecuted | scripts/deploy_network_run.py:95-110 | an accepted verification means that all planned commands of the plan that owns the journal ran and were recorded as succeeded; those of the accepted plan did exactly when both list the same ones |
| NetworkJournal.AcceptsUnrunPlan | scripts/deploy_network_run.py:196-246 | a run in which a plan with deferred driver steps was executed, and the verification of the plan of the same identity without the deferral is accepted although one of its commands never ran |
| NetworkJournal.Helper.RunOne | scripts/deploy_network_run.py:134-142 | one command: idle probe if it changes anything, journalled as running, started, journalled as succeeded, wherever it is interrupted |
| NetworkJournal.Helper.Start | scripts/deploy_network_run.py:72-84 | a command is started only when it is journalled as running and is the next planned one, a changing one right after an idle probe |
| NetworkJournal.Helper.Create | scripts/deploy_network_run.py:123-133 | taking ownership of the backup directory and starting its journal, wherever it is interrupted |
| NetworkJournal.Helper.RunCommands | scripts/deploy_network_run.py:134-144 | the loop runs exactly the planned commands and stops after the first that asks for it |
| NetworkJournal.Helper.Settle | scripts/deploy_network_run.py:149-155 | the probe that is returned has every planned address live exactly when it was not the last of thirty in a row without |
| NetworkJournal.Helper.Conclude | scripts/deploy_network_run.py:145-163 | completion is recorded only after the management path verified, with the configuration of a probe that was settled or the last of thirty that were not |
| NetworkJournal.Helper.Apply | scripts/deploy_network_run.py:111-163 | the backup directory is created exactly under the stated conditions, a probe that shows GPU work, containers of unknown work, RDMA users or a missed GPU query refuses it with nothing run, an existing directory refuses every later call unchanged, and an undisturbed call completes |
| NetworkJournal.History | scripts/deploy_network_run.py:40-163 | over any calls with any payloads, crashes and failures, commands ran once, in plan order, each changing one right after a probe that showed none of the uses that forbid it; at most one application succeeds, and its plan owns the host; an accepted verification found all the owner's planned commands run; an owner stays and the started commands only grow |
| NetworkJournal.AcceptedForGood | scripts/deploy_network_run.py:95-121 | once a verification was accepted, the host has run exactly the planned commands of its owner's plan, at every later moment too; those are the accepted plan's exactly when both list the same ones |
| NetworkJournal.RecordsUnsettled | scripts/deploy_network_run.py:145-161 | a run of a plan with a command that records an unsettled configuration as complete |
| NetworkJournal.EngineSuccessMeansExecuted | scripts/deploy_network_run.py:288-301 | for one reply: the engine's check passes exactly for the helper's acceptance, and then the journal is finished and covers every planned command of its owner, which are this plan's exactly when both list the same ones; NetworkPlan.SucceededMeansExecuted is the statement over whole histories |
| NetworkPlan.BuildNetworkPlan | scripts/deploy_network_run.py:274-314 | the sealed plan checks every host in order, then changes exactly those with commands, each with its program told to apply, a driver-reload risk where it has to rediscover, and a verification by the same program; it passes plan validation |
| NetworkPlan.NetworkKeysDistinct | scripts/deploy_network_run.py:274-303 | whatever the hosts are called, no two actions of a network plan share a receipt key |
| NetworkPlan.ChecksBeforeChanges | scripts/deploy_network_run.py:274-303 | no host is changed before every host's inventory was checked in the same invocation |
| NetworkPlan.ConfirmedMeansExecuted | scripts/deploy_network_run.py:289-301 | for one confirming event and the host as it then was: every planned command of the journal's owner was run, which are this plan's exactly when both list the same ones |
| NetworkPlan.SucceededMeansExecuted | scripts/deploy_network_run.py:274-314 | engine and helper together, from an unused receipt path over any crashes and resumptions of the one and any calls of the other, with every program told to verify or to apply answered by its host's helper: a change recorded as succeeded means that the host belongs to this very plan and has run exactly its planned commands |
| NetworkPlan.CompleteMeansExecuted | scripts/deploy_network_run.py:274-314 | a complete receipt means that every host with commands belongs to this very plan and has run exactly its planned commands |
| Hairpin.LastReload | scripts/hairpin_setting.py:15-23 | a positive reload counter points at a last successful restart, whose shown values are those in use |
| Hairpin.InEffectExactly | scripts/hairpin_setting.py:142-182 | `in-effect` is reported exactly for four queues of size 8192, a counted restart, no failed one, and offload on |
| Hairpin.InEffectSound | scripts/hairpin_setting.py:142-182 | over every run of probes, settings, restarts and offload changes, `in-effect` means the required values are in use exactly when the last successful restart since the probe happened while they were shown |
| Hairpin.PendingSound | scripts/hairpin_setting.py:154-155 | `pending` means the required values are not in use, as long as no probe defaults to them |
| Hairpin.ManualUseMisleads | scripts/hairpin_setting.py:20-22 | the documented manual sequence is reported as in effect although it is not |
| Hairpin.PlanDriver | scripts/deploy_network.py:598-723 | the steps and reverse steps for each state of a function; none at all for unreadable parameters or fixed-off offload |
| Hairpin.PlanKeepsTrust | scripts/deploy_network.py:638-712 | the planned steps, interrupted anywhere or by a failing restart, keep `in-effect` truthful |
| Hairpin.PlanReachesEffect | scripts/deploy_network.py:638-712 | all planned steps together bring four queues of size 8192 into effect |
| Hairpin.RollbackRestores | scripts/deploy_network.py:664-722 | the reverse steps after any interruption restore shown values, used values and offload exactly when the shown values were in use before or no restart was planned |
| Hairpin.RollbackLosesTrust | scripts/deploy_network.py:693-705 | after a rollback, a new plan stopped just before its restart is reported as in effect although it is not |
| NetworkPlanner.PlanFunctions | scripts/deploy_network.py:918-933 | a host's driver steps are its functions' steps in order, its reverse steps the reverse; a function with fixed-off offload refuses the host |
| NetworkPlanner.ExecIsPointwise | scripts/deploy_network.py:918-933 | functions do not disturb each other: each sees only its own commands |
| NetworkPlanner.HostKeepsTrust | scripts/deploy_network.py:918-933 | interrupting a host's steps anywhere keeps every function's report truthful |
| NetworkPlanner.HostRollbackRestores | scripts/deploy_network.py:926-932 | the driver reverse steps of a host after any interruption of its driver steps restore every function exactly when each function alone could be restored; NetworkHost.HostRestores is the statement about the one interleaved list |
| NetworkRounds.ThroughReload | scripts/deploy_network_run.py:252-255 | the driver steps taken over end with the first restart |
| NetworkRounds.DriverRound | scripts/deploy_network_run.py:222-255 | one plan on a host with functions to restart leaves exactly one fewer; without, everything is in effect |
| NetworkRounds.BuildCommands | scripts/deploy_network_run.py:222-255 | each host's commands: everything when nothing restarts, else only the restarting host's steps through its first restart; refused when some function's offload is fixed off |
| NetworkRounds.OneRestartPerPlan | scripts/deploy_network_run.py:189-193 | a plan restarts at most one function, on one host, as its last command |
| NetworkRounds.HelperRunsWholePlan | scripts/deploy_network_run.py:134-144 | the helper leaves out nothing of such a plan |
| NetworkRounds.RoundProgress | scripts/deploy_network_run.py:222-255 | plan, execute and rediscover: exactly one function fewer to restart, or every host settled |
| NetworkRounds.Converges | scripts/deploy_network_run.py:180-194 | repeated planning needs as many restart plans as there were functions to restart and one plan more, and then plans nothing |
| NetworkRounds.ConvergesTruthfully | scripts/deploy_network_run.py:180-194 | from counters that can be trusted, the values reported in the end are really in use |
| NetworkProfiles.PlanConnection | scripts/deploy_network.py:398-559 | a port is planned exactly when what a rollback needs is known and it matches already, or what is changed or replaced is owned or exactly the authorized profile, and what is created is unused; a refusal names a real defect |
| NetworkProfiles.ApplyReaches | scripts/deploy_network.py:438-544 | all steps of a port make its active profile and its device run with the one address, an MTU of 9000 and the other literal settings of the plan |
| NetworkProfiles.AppliedMatches | scripts/deploy_network.py:375-395 | a port that was planned and applied matches its plan at the next full and truthful reading |
| NetworkProfiles.NothingMeansInPlace | scripts/deploy_network.py:375-395 | a port of which nothing is asked runs with the planned address, an MTU of 9000 and the other planned settings already |
| NetworkProfiles.UndoOne | scripts/deploy_network.py:444-559 | a port's reverse steps undo any prefix of its steps exactly when the flags the inventory did not know of a modified profile were off |
| NetworkProfiles.UnknownFlagIsLost | scripts/deploy_network.py:444-453 | a port whose unread flag was on and comes back off |
| NetworkProfiles.PlanPorts | scripts/deploy_network.py:918-925 | all ports are planned exactly when each can be; in order, reverse steps to the front, each created identifier absent from the inventory |
| NetworkProfiles.CreatedIsUnused | scripts/deploy_network.py:465-475 | with every saved profile in the inventory, a planned profile does not exist yet |
| NetworkProfiles.PrefixKeepsReady | scripts/deploy_network.py:918-925 | any prefix of the other ports' steps leaves a port as it was planned |
| NetworkProfiles.HostUndo | scripts/deploy_network.py:918-925 | the NetworkManager reverse steps of a host after any interruption in any port restore every profile, active connection and device setting, when the flags unknown of modified profiles were off |
| NetworkProfiles.HostUndoExactly | scripts/deploy_network.py:918-925 | they do so after every interruption exactly then |
| NetworkProfiles.PlannedArePlaced | scripts/deploy_network.py:398-559 | ports planned from a complete and truthful inventory are as the two statements above require |
| NetworkHost.PlanHost | scripts/deploy_network.py:918-932 | a host is planned exactly when each port can be and no offload is fixed off; port by port: NetworkManager steps first and driver steps last, and one reverse list with each port's NetworkManager and driver reverse steps put in front |
| NetworkHost.ActsBySides | scripts/deploy_network.py:918-932 | any interleaved list acts on NetworkManager and on the driver as its two sides do |
| NetworkHost.ReverseSides | scripts/deploy_network.py:925-932 | the two sides of the one reverse list are the reverse lists of the two kinds of steps |
| NetworkHost.HostRestoresFrom | scripts/deploy_network.py:918-932 | the statement below for any number of a host's first NetworkManager steps followed by its driver steps |
| NetworkHost.DriverAlone | scripts/deploy_network_run.py:249-255 | without NetworkManager steps a host's list is its driver list |
| NetworkHost.HostRestores | scripts/deploy_network.py:918-932 | any prefix of a host's steps, and any prefix of its driver steps alone as they are run while a function is to be restarted, ending in a failed restart or not, followed by the one interleaved reverse list restores profiles, active connections, settings in use, shown and used driver values and offload, exactly when the unknown flags of modified profiles were off and each function alone could be restored |
| ReceiptCache.SameChangeTime | scripts/installer_host.py:474-483 | equal change times mean that nothing happened to the inode in between |
| ReceiptCache.SoundMeansHash | scripts/installer_host.py:524-529 | wherever a name's five stat values equal its recorded ones, now or later, its content has the recorded hash |
| ReceiptCache.Installer.HashFile | scripts/installer_host.py:349-362 | a file is hashed only with the recorded identity, size and modification time; one that is the same throughout is hashed right, block by block; a stable file with the recorded values is hashed |
| ReceiptCache.Installer.HashDescriptor | runtime/host/checkpoint_place.py:927-941 | blocks read at different moments give the digest of any content the inode had throughout; a file of the expected size that keeps its content is hashed |
| ReceiptCache.Installer.Rehash | scripts/installer_host.py:559-563 | names whose stat values are the same before and after hashing were hashed right |
| ReceiptCache.Installer.Measure | scripts/installer_host.py:549-563 | each digest, remembered or new, is that of the content at the moment the stat values were read |
| ReceiptCache.Installer.VerifyModel | scripts/installer_host.py:521-573 | acceptance returns a receipt with every required name's stat values, its content at that very reading being the pinned one, and other names' values as they were; with a quiet disk it accepts exactly what hashing everything would and its receipt needs no further hashing; refreshing saves that receipt and its path record, and no other receipt changes, exactly when something was hashed again |
| ReceiptCache.Installer.KeepRenewed | scripts/installer_host.py:568-572 | a renewed receipt is saved at its place and at the path record, and nothing else changes |
| ReceiptCache.Installer.Remembered | scripts/installer_host.py:474-490 | remembered hashes are given exactly when every stat value is recorded, and are right whenever the files have those values |
| ReceiptCache.VerifyThenRemember | scripts/installer_host.py:474-573 | with a quiet disk, after a refreshing verification that hashed something the path record gives every verified name's pinned hash |
| ReceiptCache.Installer.PlaceLink | runtime/host/checkpoint_place.py:1012-1031 | the content had the hash at the last look before the link, and the returned stat values stand for it exactly when no write in between kept size and modification time |
| ReceiptCache.LinkMisleads | runtime/host/checkpoint_place.py:1012-1031 | a link during which such a write happened: the returned values never stood for the hash |
| ReceiptCache.Installer.RefreshEntry | scripts/installer_host.py:648-658 | an entry takes the current stat values exactly when it records the linked inode as it was and the file still has the values right after the link |
| ReceiptCache.Installer.RefreshReceipts | scripts/installer_host.py:597-664 | entries of linked inodes change, only to the values right after the link and only when the file has them; unlisted receipts are untouched; receipts stay truthful if those values stand for the linked hash |
| ReceiptCache.Installer.LinkAndRefresh | scripts/installer_host.py:952-990 | hashing, linking and refreshing together: if no write until the link kept the linked inode's size and modification time, every receipt stays truthful and the returned values stand for the pin, and with nothing going on after the link a listed receipt that needed no hashing before needs none after; a pinned file that nothing but one change of its change time touches is linked |
| ReceiptCache.Installer.Finish | scripts/installer_host.py:751-776 | the first receipt and path record are written exactly when every required name is in place under its pin with its journalled stat values; with a truthful journal receipts stay truthful and every name's content was the pinned one; a verification on a quiet disk then hashes nothing |
| ReceiptCache.NoHashingAfterRefresh | scripts/installer_host.py:600-601 | a receipt that needed no hashing before SparkRing's links needs none after the refresh |
| ReceiptCache.NeedsNoneMeans | scripts/installer_host.py:549-557 | needing no hashing means that a verification finds no changed name |
| ReceiptCache.History | scripts/installer_host.py:521-990 | over any links, first receipts and verifications next to writers that are honest about the inodes to be linked, receipts are truthful and every success proved, within its own span, the content it vouches for |
| Pacing.Bucket.Pay | scripts/installer_host.py:93-98 | the bucket's new balance and the wait that pays back an overdraft |
| Pacing.PacingBound | scripts/installer_host.py:88-100 | the bytes of any consecutive takes are at most the rate times one second plus the time from the first call to the last return |
| Pacing.SinceFull | scripts/installer_host.py:88-100 | what the bucket holds after a take is accounted for, to the byte, by the time and the bytes since the last take at which it had filled up |
| Pacing.WaitIsNeeded | scripts/installer_host.py:88-100 | no wait is longer than needed: when it is over, the bytes since some earlier take are exactly what the bound allows |
| Pacing.BoundIsTight | scripts/installer_host.py:88-100 | that bound is reached |
| Pacing.PaceAll | scripts/installer_host.py:88-100 | a bucket fed with any reads in clock order produces a run to which the bound applies |
| StagingLock.InvStep | scripts/deploy_stage.py:239-294 | every step of every controller or remote process keeps: a lock carries a token exactly while its controller's stage says so |
| StagingLock.OnlyOwnLocks | scripts/deploy_stage.py:271-293 | no step changes a lock that is neither free nor its own |
| StagingLock.MoverAgrees | scripts/deploy_stage.py:239-294 | the moving controller's own locks follow its stage |
| StagingLock.CommandHoldsLock | scripts/deploy_stage.py:309-347 | every guarded command runs while each host it touches is locked by the controller that issued it |
| StagingLock.MutualExclusion | scripts/deploy_stage.py:604-622 | two stagings with a host in common are never both between their last acquisition and first release |
| StagingLock.CrashBlocks | scripts/deploy_stage.py:621 | a controller that died or gave up keeps its locks for ever whatever its last remote process still does, but for the one lock that process was taking or releasing, and no other staging that needs one of these hosts gets all of its own |
| StagingLock.DeadAtWorkHoldsAll | scripts/deploy_stage.py:604-622 | a staging that died at work keeps all of its hosts locked for ever, even while an orphaned command goes on |
| StagingLock.FinishedLeavesNothing | scripts/deploy_stage.py:790-794 | a finished staging has released everything |
| StagingLock.FreeHostsCanFinish | scripts/deploy_stage.py:604-622 | a staging whose hosts are free can check, lock, run a guarded command on any of them, release and finish, leaving all of them free |
| ShapeSweep.NextPowerIsLeast | scripts/deepseek_v4_shape_warmup.py:103-105 | the least power of two not below the value |
| ShapeSweep.ConcurrencyLadder | scripts/deepseek_v4_shape_warmup.py:117-126 | the rungs are exactly the powers of two below the limit and the limit, in order |
| ShapeSweep.LadderCovers | scripts/deepseek_v4_shape_warmup.py:117-126 | every number of concurrent requests has a rung at least as high and less than twice it |
| ShapeSweep.BucketTargets | scripts/deepseek_v4_shape_warmup.py:129-144 | the targets are exactly the buckets with room for a prompt, each with its longest one, in order |
| ShapeSweep.FilterNeverRejects | scripts/deepseek_v4_shape_warmup.py:142 | the filter on the compiled bucket never rejects |
| ShapeSweep.ExactCoverage | scripts/deepseek_v4_shape_warmup.py:129-144 | targets exist exactly when the block holds the depth and two tokens, and then the targeted buckets are exactly those that prompts compile |
| ShapeSweep.TargetIsLongest | scripts/deepseek_v4_shape_warmup.py:138-143 | below the block size the target is the longest prompt of its bucket |
| ShapeSweep.AtMostOneBucketLeftOut | scripts/deepseek_v4_shape_warmup.py:197-201 | of the buckets that servable prompts need, at most one has its arm skipped for exceeding the model length |
| ShapeSweep.LeftOutExactly | scripts/deepseek_v4_shape_warmup.py:197-201 | no bucket's arm is skipped exactly when the target of the bucket of the limit itself is within the limit |
| ShapeSweep.BucketLeftOut | scripts/deepseek_v4_shape_warmup.py:197-201 | a limit at which one arm is skipped |
| ShapeSweep.ResolveCompletionPrompt | scripts/deepseek_v4_shape_warmup.py:334-377 | what is found is exact; if fillers only add tokens, a filler count that exists is found and is unique, within one measurement per bit of the target |
| StartRanks.OthersSurvive | scripts/deepseek_v4_cycle_ctl.py:110-131 | over a whole run, whatever happens to a container without this launch's label was done by others: existence, label, names and whether it runs |
| StartRanks.CoveredExactly | scripts/deepseek_v4_cycle_ctl.py:121-131 | every launch is removed or reported exactly when no rollback found its name held by another launch's container |
| StartRanks.TakenThroughout | scripts/deepseek_v4_cycle_ctl.py:110-131 | a name held by another launch's stopped container is never freed by this invocation |
| StartRanks.TakenIsUnreported | scripts/deepseek_v4_cycle_ctl.py:116-131 | on such a rank a launch is neither removed nor reported |
| StartRanks.UnreportedLaunch | scripts/deepseek_v4_cycle_ctl.py:134-223 | a whole run in which that happens |
| StartRanks.OrderedHeadLast | scripts/deepseek_v4_cycle_ctl.py:147 | workers come first, ascending, and the head last |
| StartRanks.Starter.Running | scripts/deepseek_v4_cycle_ctl.py:82-86 | the answer is whether a running container has the name when the host is looked at |
| StartRanks.ScriptExactly | scripts/deepseek_v4_cycle_ctl.py:110-118 | the script removes exactly a container of this launch with a full hexadecimal identifier that the name held and that still exists; what it reports follows from that and from how far it got |
| StartRanks.Starter.RunScript | scripts/deepseek_v4_cycle_ctl.py:110-118 | the script inspects by name and removes by identifier, on a host that anyone may have changed in between; it removes nothing but a container of this launch |
| StartRanks.Starter.RollBack | scripts/deepseek_v4_cycle_ctl.py:121-131 | every launched rank ends removed, found to hold another launch's container, or reported |
| StartRanks.Starter.StartOne | scripts/deepseek_v4_cycle_ctl.py:150-200 | a rank starts exactly when it could be asked and runs already, or its launch is acknowledged and its container shows up in time; it counts as started only when observed running |
| StartRanks.Starter.WaitFor | scripts/deepseek_v4_cycle_ctl.py:182-199 | a wait ends well exactly when one of the allowed looks shows a running container of that name and no look up to it was lost |
| StartRanks.Starter.AwaitApi | scripts/deepseek_v4_cycle_ctl.py:211-220 | ready exactly when the head answered before the polls ran out and before any poll failed |
| StartRanks.Starter.Start | scripts/deepseek_v4_cycle_ctl.py:134-223 | over the whole run removals hit this launch's containers only; the head is launched only after every worker was observed running; failure settles every launch, covers it exactly when no name was held by another launch, and happens only for a rank that did not start with its host as it then was or a head whose API did not answer in time; a missing head raises after every rank was started, with nothing rolled back; success saw every rank running |
| StartRanks.StartLaunchable | scripts/deepseek_v4_cycle_ctl.py:134-223 | with nothing lost, every launch acknowledged, every launched container up within the allowed looks and, if waited for, an API that answers in time, the start succeeds and rolls nothing back |
| StartRanks.FreshStart | scripts/deepseek_v4_cycle_ctl.py:134-223 | a whole run that starts a fresh head |
| Fanout.FabricChain | scripts/fanout_image_archive.py:113-155 | the chain is a path over direct links with a unique port each that visits every rank once, and on a ring with all ports it is always found |
| Fanout.NeverStuck | scripts/fanout_image_archive.py:130-138 | on a ring exactly one neighbour is left until all ranks are visited |
| Fanout.StaysExactly | scripts/fanout_image_archive.py:190-247 | a file stays what it is whatever left-over writers do exactly when none of them holds it open |
| Fanout.KeptTwice | scripts/fanout_image_archive.py:553-681 | what steps keep of the archives, with what left-over writers may have written and which files they have open, any number of steps keep |
| Fanout.CleanRun | scripts/fanout_image_archive.py:553-681 | steps whose commands all end in time leave no more files open to left-over writers, and if none was open every archive is unchanged or newly exact |
| Fanout.Fleet.ProbeRank | scripts/fanout_image_archive.py:173-186 | a probe that reports an exact archive saw the exact content at that step |
| Fanout.Fleet.Fill | scripts/fanout_image_archive.py:190-232 | only the partial file is filled, in place if there is one; it stays open afterwards exactly when the command outlives its run |
| Fanout.Fleet.Promote | scripts/fanout_image_archive.py:235-247 | an archive appears exactly where there was none and the partial file has the exact content at that moment, as a second name of it; success is reported exactly when the partial name is gone too |
| Fanout.Fleet.Download | scripts/fanout_image_archive.py:190-210 | a download touches no existing archive and ends well only with the exact one; one that outlives its run leaves a writer on the partial file |
| Fanout.Fleet.Copy | scripts/fanout_image_archive.py:213-232 | a transfer reads the exact content, or what a left-over writer put into the source's archive, and fills only the partial file; it succeeds exactly when its command ran, ended in time and was reported |
| Fanout.Fleet.Hop | scripts/fanout_image_archive.py:608-669 | a hop reuses, refuses or transfers, and ends well only with the destination found exact; undisturbed it succeeds exactly when the destination holds nothing or the exact archive |
| Fanout.Fleet.Execute | scripts/fanout_image_archive.py:553-681 | no archive's name is given away, and every archive is unchanged or newly exact but for what a left-over writer wrote to it, who was there before or whose command outlived this run; a normal end found every rank exact; with no writer left over before and all commands ending in time, archives are unchanged or exact at any end, all ranks are exact at a normal one, and every transfer read exact content; undisturbed runs end normally exactly when no rank conflicts |
| Fanout.Repeat | scripts/fanout_image_archive.py:553-681 | the same over any number of runs, each interrupted anywhere and leaving writers behind |
| Fanout.LeftOverCorrupts | scripts/fanout_image_archive.py:190-210 | a timed-out download whose command goes on, a next run that finds the archive exact, and one more write after which it is not |
| Adoption.Adopter.PlaceLink | scripts/installer_host.py:919-955 | an exact account of one source: whether the adoption goes on, which list the name ends in, which space check is made and how many unplanned bytes are added; a name is denied exactly when its source is right, cannot be linked and its copy would exceed the tolerance |
| Adoption.Adopter.CopyInstead | scripts/installer_host.py:932-949 | a link that became a copy stays within the tolerance and after a space check for it and all planned copies |
| Adoption.Adopter.PlaceLinks | scripts/installer_host.py:906-958 | all links are placed exactly when none stops the adoption and every space check they need succeeds, each into its own list |
| Adoption.Adopter.PlaceCopies | scripts/installer_host.py:960-984 | the copies write at most the bytes the space check covered and each name is entered once |
| Adoption.Adopter.Adopt | scripts/installer_host.py:906-984 | abandoned exactly when a link or an unplanned copy fails, a planned copy runs out of space or a space check fails; else every planned name ends in exactly the list that its source, link, copy and the tolerance say, the bytes written are the copied sizes, replaced links stay within the tolerance, and the space checks are exactly those needed |

## Left out

- Engine: command timeouts and the result texts kept in receipts; the pool may have any number of workers instead of four; the authorization check repeated inside the phase loop is the one before it; the process lock is assumed, not modelled.
- EngineTrace.WriteAhead: says that a sent action is recorded as running, not that a recorded one was sent, because that is false; EngineTrace.SentExactlyIfRecordedAndSent says when it is.
- RuntimePlan: the create, install, ready, native-check, status and logs plans; inline assertion programs are represented by names; path and receipt checks of the preparation.
- NetworkJournal: file modes, symlink details and the text of errors; the backup commands are commands like any other.
- NetworkPlan.SucceededMeansExecuted: the calls of one host's helper follow one another, and replies come from them unaltered.
- NetworkPlan: blockers, unknown hairpin state and the administration-network refusal of the planner are preconditions of the plan built here.
- NetworkRounds: backup commands precede the modelled ones; a host's NetworkManager changes are one command there and are modelled in NetworkProfiles.
- NetworkRounds.Converges: assumes successful commands, readable functions and no outside change, as planning refuses hosts where that is not so.
- Hairpin: parsing of devlink and ethtool output; eSwitch and steering-mode refusals.
- ReceiptCache: the scan for extra file names, the checkpoint contract hashes, derived checkpoints, hosts without POSIX stats, the lists of admissible receipt paths, how copies and downloads enter the placement journal; hashing is sequential, not by a thread pool.
- ReceiptCache.Installer.VerifyModel: says nothing about extra names in the directory, because the scan is left out.
- Pacing: floating point; times and amounts are real numbers.
- StagingLock: modelled as a transition system on values, because the point is the interleaving of many controllers; the work between guarded commands, ownership records and path checks can only refuse.
- ShapeSweep: assembling and sending of arms, health waiting, the HTTP tokenizer.
- StartRanks: stopping and status commands; elapsed time is a number of polls; each rank has a Docker host of its own.
- StartRanks.Starter.RollBack: does not report a launch whose name holds a container of another launch, because the script treats that as nothing to do.
- ReceiptCache.History: assumes of each inode to be linked, from the start of that operation on, that writes which change its content do not keep both size and modification time.
- Fanout: image loading, plan rendering and link-speed evidence; checksum and link of one script are one step, one controller runs at a time, and of a timed-out script only the transfer command goes on.
- Adoption: settling of earlier placements, the receipts written at the end, hashing order.
- Inventory probing, generators, profile constants, benchmarks, the native collectives: either table rendering or settled by reading one branch.
