# Live outputs of the realtime session: a verified model

A realtime transcoding session runs one control thread that repeatedly calls `poll()`. While media flows, it
adds outputs, drains and fails them, and retires them; one worker thread prepares a candidate output at a time, and
any number of API threads submit commands through a one-slot mailbox. Several outputs may share an encoding group.
This project models that engine and the small protocols around it, and proves what they keep in every interleaving.

The controller exists twice. `ControllerModel` is a transition system: `Apply` performs one step of the control
thread, of the preparation worker, of a calling thread or of a running branch, and what a step reads from its
surroundings (clocks, planning results, failures) is an argument of the step, so every interleaving of the threads is
a list of steps and the theorems are about all of them. `OutputRunController` is the object with the program's own
fields and loops; each of its methods is proved to do what the corresponding function of the transition system does,
and `Poll` is proved to be a run of it, with the other threads' steps anywhere in between. The mailbox, the
preparation exchange, the session and the line reader are objects in the same way.

| files | what they hold |
|---|---|
| `ControlModel`, `RunControl` | the mailbox, the snapshot table with the history of its writes, the stop and claim state |
| `PreparationExchange` | the hand-off of a candidate between control thread and worker |
| `RuntimeBranch` | a branch as its controller sees it |
| `ControllerModel`, `ControllerInvariant` | the controller's state, steps and invariant |
| `ControllerEffects`, `ControllerSlot`, `ControllerGroups`, `ControllerGraph`, `ControllerTable` | the invariant, part by part |
| `ControllerRuns`, `ControllerRelease`, `ControllerHistory`, `ControllerReports`, `ControllerMetrics` | what holds over whole runs |
| `ControllerPoll`, `ControllerProgress`, `ControllerFinish` | `poll()` as a run, what brings it closer to an end, the termination of `finish()` |
| `ControllerHolding`, `ControllerLiveness` | every change gives the slot back in bounded time |
| `ControllerMoves` | what a step does to one output and one group, and what it tells the observer, stated exactly |
| `ControllerAdmission`, `ControllerAgreement`, `ControllerAddition` | who is refused and why, that generations never mix, and that an addition nothing stands in the way of succeeds |
| `ControllerPromotion` | a ready output runs, a late one fails, the first failure is reported |
| `ControllerRemoval`, `ControllerRetirement` | commands are taken, an undisturbed removal ends without an error, whatever stops is gone in bounded time |
| `ControllerOutcome` | what `finish()` does to the outputs it finds, and what it returns |
| `OutputRunController` | the controller object |
| `EgressAccount`, `ControllerEgress` | bandwidth reservation with concurrent releases, and inside the controller |
| `ControllerObserver`, `SessionOutputs` | what the controller tells its observer, and a session its callback, about an output |
| `StartPublication`, `SessionStory`, `SessionReasons`, `BetaSession`, `DescriptionOwnership` | the Beta session around the controller |
| `LineReader`, `CommandTokenizer`, `OptionScan` | the command front end |
| `Wrappers`, `OutputTypes`, `Sums` | shared vocabulary |

## What turned out not to hold

*An output's published state only moves forward* is false of the code. `beginDrain`
(src/internal/graph/runtime/threading/MediaRuntimeBranch.cpp:184) examines the branch's state but not its recorded
failure. A worker that fails between the poll of its branch and the check for a failure
(src/application/realtime/MediaRealtimeOutputRunController.cpp:902-904) leaves the branch Running; a removal taken in
the same `poll()` is then accepted and publishes Draining after Failed. `StatesCanMoveBackward` shows it for every
waiting output of an idle session, `StepForward` and `RunForward` prove that the history is forward if and only if no
drain is accepted for an output already listed Failed, and everything else about the order (nothing after Retired, Running once and never
after Failed) is proved without exception.

*Only Preparing and Waiting are reported of an output before Running* is false while the session finishes. `finish`
rejects a pending removal and so reports Retired at once
(src/application/realtime/MediaRealtimeOutputRunController.cpp:972-975); if the workers of that output had exited
unasked, its branch can no longer be drained, and `poll()` may still find it ready and report Running.
`ReportsCanComeLate` gives the run, and `RunEarly` proves that it is the only way: the order holds if and only if no
output is promoted that is no longer listed, which never happens before `finish`. That Running is reported at most once
holds without exception.

*`finish` returns the failure it was given* holds only if it finds an output that can still be failed: a branch that is
being reclaimed ignores the failure
(src/internal/graph/runtime/threading/MediaRuntimeBranch.cpp:227-235), so a session in which all branches are, or in
which no output is left, finishes without one. `FinishReturns` gives the exact condition when nothing else fails, and
`CauseIsReturned` that some failure is returned in any surroundings when an output is alive.

*Quoting an argument the obvious way* fails for arguments that end in a backslash; `PlainQuotingRoundTrips` gives the
exact condition, and `QuotingRoundTrips` a quoting that always works.

Two facts the proofs rest on that are easy to miss: an output whose publication failed may only be looked at after
every group has been polled again (a group that failed to subscribe fails its members there, before a slot could be
freed for them), and the description lock must be held from the admission of an output to the insertion of its
description.

## Model

| member | source | states |
|---|---|---|
| `ControllerRuns.RunKeepsValid` | src/application/realtime/MediaRealtimeOutputRunController.cpp:846-960 | In every interleaving of the control thread, worker, callers and branches the busy slot, the group accounting, the graph and the snapshot table stay in step: the mailbox is busy exactly while an output is changing, and that output is held by the preparation, the deferred notification or the outputs |
| `ControllerRuns.StepKeepsValid` | src/application/realtime/MediaRealtimeOutputRunController.cpp:187-219 | Each single step, in any order, keeps that invariant |
| `ControllerRuns.InitialIsValid` | src/application/realtime/MediaRealtimeOutputRunController.cpp:372-389 | A session whose initial output has just been started satisfies it |
| `ControllerSlot.StepKeepsSlot` | src/application/realtime/MediaRealtimeOutputRunController.cpp:208-219 | The busy slot never leaks, and a deferred notification always carries the changing identifier |
| `ControllerGroups.StepKeepsGroups` | src/application/realtime/MediaRealtimeOutputRunController.cpp:747-760 | Every output's group is registered, a group counts exactly its live outputs, and a draining group has none and is stopping |
| `ControllerGraph.StepKeepsGraph` | src/application/realtime/MediaRealtimeOutputRunController.cpp:768-771 | No lost graph update: the graph is exactly the shared nodes and those of published live groups and outputs, disjointly, and an equal version means the very graph the candidate was built on |
| `ControllerTable.StepKeepsListed` | src/application/realtime/MediaRealtimeOutputRunController.cpp:883-935 | The table lists the live outputs and the one in transition, in the order of their states |
| `ControllerRuns.PublicationAddsOnly` | src/application/realtime/MediaRealtimeOutputRunController.cpp:735-771 | Publishing a candidate whose version still matches adds its nodes and loses none |
| `ControllerRuns.RetirementTakesOwnNodes` | src/application/realtime/MediaRealtimeOutputRunController.cpp:913-919 | A retiring output removes its own nodes only, and one whose publication failed removes none |
| `ControllerRuns.DrainingGroupIsNeverJoined` | src/application/realtime/MediaRealtimeOutputRunController.cpp:619-628 | Over whole runs a group that drains, or is gone, never gains an output, even if it was chosen for reuse before; its identity never returns |
| `ControllerRuns.ErasedGroupIsUnused` | src/application/realtime/MediaRealtimeOutputRunController.cpp:810-842 | A group is erased only at count zero, when no output names it |
| `ControllerRuns.FinishingRunShrinks` | src/application/realtime/MediaRealtimeOutputRunController.cpp:568-569 | Once finishing, no output, group or preparation is ever created, and no branch turns back |
| `ControllerRelease.SlotFreeMeansReleased` | src/application/realtime/MediaRealtimeOutputRunController.cpp:922-934 | The slot is freed only when its output becomes Running, or when the output and its entry are gone, its unused group is gone and no preparation is outstanding |
| `ControllerRelease.LastMemberDefers` | src/application/realtime/MediaRealtimeOutputRunController.cpp:926-930 | The last member of a group, retiring while it is changing, defers its notification to the group |
| `ControllerRelease.SlotWaitsForGroup` | src/application/realtime/MediaRealtimeOutputRunController.cpp:796-844 | Over whole runs the slot then stays busy until that group is gone for good |
| `ControllerRelease.NoticeIsKept` | src/application/realtime/MediaRealtimeOutputRunController.cpp:826-834 | A deferred notification is never overwritten; it may only gain the failure its group met |
| `ControllerRelease.OnlyReadyOutputsRun` | src/application/realtime/MediaRealtimeOutputRunController.cpp:885-896 | An output becomes Running only from Waiting, in its own poll, before its transaction deadline and within its startup wait, with an active authority, ready evidence of its own generation and no preparation outstanding |
| `ControllerRelease.RunningWasReady` | src/application/realtime/MediaRealtimeOutputRunController.cpp:885-912 | Over whole runs: an output that runs became Running at some step of the run, ready, before its transaction deadline and within its startup wait |
| `ControllerRelease.SlotIsFreedProperly` | src/application/realtime/MediaRealtimeOutputRunController.cpp:208-219 | Over whole runs: the slot is given back only at a step where its output became Running or nothing was left of the change |
| `ControllerHolding.RunKeepsAwaited` | src/application/realtime/MediaRealtimeOutputRunController.cpp:883-938 | In every run a changing output is stopping, or waiting with a deadline, and a group that a notification waits for has no member |
| `ControllerHolding.InitialIsAwaited` | src/application/realtime/MediaRealtimeOutputRunController.cpp:372-389 | So it is in a session whose initial output has just been started |
| `ControllerHolding.StepHolds` | src/application/realtime/MediaRealtimeOutputRunController.cpp:846-960 | A step that does not free the slot turns nothing of its change back: the deadline stays, branches only go on, the awaited group stays the same |
| `ControllerLiveness.RoundComesCloser` | src/application/realtime/MediaRealtimeOutputRunController.cpp:846-960 | Every fair poll that does not free the slot strictly lowers the bound on the polls the change can still take |
| `ControllerLiveness.EveryChangeEnds` | src/application/realtime/MediaRealtimeOutputRunController.cpp:208-219 | The busy slot never stays busy: under fair polls and an advancing clock, in more rounds than an explicit bound there is a step at which it is given back, with its output Running or nothing left of the change |
| `ControllerHistory.RunningComesOnceAndInTime` | src/application/realtime/MediaRealtimeOutputRunController.cpp:851-857 | Whatever was listed before Running was Preparing or Waiting: an output listed Failed by an expired budget never runs, and none runs twice |
| `ControllerHistory.StepForward` | src/application/realtime/MediaRealtimeOutputRunController.cpp:784-794 | A step keeps the published states forward if and only if it is not a drain accepted for an output already listed Failed |
| `ControllerHistory.RunForward` | src/application/realtime/MediaRealtimeOutputRunController.cpp:939-957 | The same over whole runs, both directions |
| `ControllerHistory.RegressionIsARace` | src/internal/graph/runtime/threading/MediaRuntimeBranch.cpp:179-190 | Such a drain is a race with a recorded failure or with the deadline |
| `ControllerHistory.StatesCanMoveBackward` | src/application/realtime/MediaRealtimeOutputRunController.cpp:902-904 | For every waiting output of an idle session, the three steps that publish Draining after Failed |
| `ControllerHistory.FreshSessionCanMoveBackward` | src/internal/graph/runtime/threading/MediaRuntimeBranch.cpp:184-190 | A concrete run from a freshly started session that does so |
| `ControllerReports.ErrorIsFirstFailure` | src/application/realtime/MediaRealtimeOutputRunController.cpp:904-911 | In every run the error an output reports is the first failure its branch recorded, and a Failed output reports one |
| `ControllerReports.RunNotesFirst` | src/application/realtime/MediaRealtimeOutputRunController.cpp:824-825 | In every run the failure `finish` is to return, once set, never changes; it is the first the run came upon while finishing (an output that turned Failed, or a failed group that was erased), and none exactly if there was none |
| `ControllerReports.StepNotes` | src/application/realtime/MediaRealtimeOutputRunController.cpp:904-912 | Which step sets it, and to what |
| `ControllerEgress.StepIsAnAccountRun` | src/application/realtime/MediaRealtimeOutputRunController.cpp:221-241 | Every step of the controller is a run of the egress account: an admission checks and adds, a retirement and the end of an unpublished candidate release, nothing else touches it |
| `ControllerEgress.RunKeepsAccounted` | src/application/realtime/MediaRealtimeOutputRunController.cpp:629-653 | In every run the counter is exactly the sum of the leases of the live outputs and of the admitted candidate, and within the capacity |
| `ControllerEgress.InitialIsAccounted` | src/application/realtime/MediaRealtimeOutputRunController.cpp:356-357 | So it is in a session whose initial output fits |
| `ControllerObserver.RunKeepsObserved` | src/application/realtime/MediaRealtimeOutputRunController.cpp:177-185 | In every run, repeated retirement reports included, the observer is told at most once that an output runs |
| `ControllerObserver.RunEarly` | src/application/realtime/MediaRealtimeOutputRunController.cpp:885-896 | Over whole runs only Preparing and Waiting are reported of an output before Running, if and only if no output is promoted that is no longer listed |
| `ControllerObserver.StepEarly` | src/application/realtime/MediaRealtimeOutputRunController.cpp:883-936 | The same of one step |
| `ControllerObserver.NotBeforeFinishing` | src/application/realtime/MediaRealtimeOutputRunController.cpp:965-975 | Before `finish` no output is promoted that is not listed |
| `ControllerObserver.ReportsCanComeLate` | src/application/realtime/MediaRealtimeOutputRunController.cpp:972-980 | For every waiting output of an idle session, a run in the order of `finish` that reports Running after Retired |
| `ControllerObserver.InitialIsObserved` | src/application/realtime/MediaRealtimeOutputRunController.cpp:380-386 | A freshly started session has told its observer nothing out of order |
| `ControllerMetrics.RunCounts` | src/application/realtime/MediaRealtimeOutputRunController.cpp:1066-1071 | The aggregate is exactly what the branches ever counted, so publication and retirement lose nothing and count nothing twice, and it never decreases |
| `ControllerMetrics.StepCounts` | src/application/realtime/MediaRealtimeOutputRunController.cpp:835-835 | Each step adds to the aggregate exactly the traffic counted in it and what newly published branches bring |
| `ControllerMoves.StepMoves` | src/application/realtime/MediaRealtimeOutputRunController.cpp:883-936 | Every step leaves an output in place, moved exactly as stated output by output, or takes it out, exactly if its branch has retired in its own poll |
| `ControllerMoves.StepBrings` | src/application/realtime/MediaRealtimeOutputRunController.cpp:757-760 | An output comes exactly from a constructed candidate nothing objects to, and as its publication left it |
| `ControllerMoves.StepMovesGroup` | src/application/realtime/MediaRealtimeOutputRunController.cpp:796-844 | Every step leaves a group in place, its branch moved as stated and its generation the same, or erases it, exactly if it is unused and retires |
| `ControllerMoves.GroupsComeByPublication` | src/application/realtime/MediaRealtimeOutputRunController.cpp:747-749 | A group is registered only when a constructed candidate is published |
| `ControllerMoves.StepSays` | src/application/realtime/MediaRealtimeOutputRunController.cpp:177-219 | What the observer is told in a step, snapshot by snapshot and in order, is exactly what is stated |
| `ControllerMoves.NoticeMoves` | src/application/realtime/MediaRealtimeOutputRunController.cpp:208-219 | A deferred notification stays as it is, gains the failure of the group it waits for, or is sent as it is |
| `ControllerMoves.GoneIsNotified` | src/application/realtime/MediaRealtimeOutputRunController.cpp:920-934 | The retirement of an output is told at once, or deferred to its group or its preparation |
| `ControllerPromotion.PollFindsFirst` | src/application/realtime/MediaRealtimeOutputRunController.cpp:897-912 | After a poll an output has its first failure: the one it had, a missed deadline, what its workers recorded before, a silence, what they recorded after; it is Failed exactly if there is one, and reports it |
| `ControllerPromotion.PollVerdict` | src/application/realtime/MediaRealtimeOutputRunController.cpp:885-900 | A poll of a healthy waiting output in which nothing fails has three results: it runs if it is ready in time, fails for want of media if it is late, and waits otherwise |
| `ControllerPromotion.ReadyOutputRuns` | src/application/realtime/MediaRealtimeOutputRunController.cpp:885-896 | The converse of OnlyReadyOutputsRun: a ready output is reported Running exactly once, its slot is free, and unless something fails in the same iteration it runs and is listed so |
| `ControllerPromotion.HealthyOutputRuns` | src/application/realtime/MediaRealtimeOutputRunController.cpp:883-936 | Over whole runs a waiting output nobody fails, removes or stops, looked at in time with ready evidence, runs: reported Running once, never Failed, and listed Running |
| `ControllerPromotion.ReadyPollRuns` | src/application/realtime/MediaRealtimeOutputRunController.cpp:846-960 | One call of `poll()` is enough for it |
| `ControllerAdmission.VerdictMeans` | src/application/realtime/MediaRealtimeOutputRunController.cpp:552-635 | A planned candidate is admitted exactly if none of eleven grounds objects, to the group it asked for; otherwise the first ground in order is reported |
| `ControllerAdmission.AdmissionMeans` | src/application/realtime/MediaRealtimeOutputRunController.cpp:562-637 | Construction begins exactly if the source is at the candidate's generation, the graph is the one it was planned on, there is time and room, its group can be shared and nothing was refused |
| `ControllerAdmission.FitCandidateIsAdmitted` | src/application/realtime/MediaRealtimeOutputRunController.cpp:603-633 | An admitted candidate has its group, a new one an identity of its own, and its bandwidth; nothing else changes |
| `ControllerAdmission.UnfitCandidateIsRejected` | src/application/realtime/MediaRealtimeOutputRunController.cpp:187-206 | A refused one is told and listed Failed with the first ground, Retired is to follow, its worker is released and it holds no bandwidth |
| `ControllerAdmission.BudgetMeans` | src/application/realtime/MediaRealtimeOutputRunController.cpp:849-857 | Failed is told and listed exactly when the startup budget runs out for the first time; the worker keeps its candidate |
| `ControllerAdmission.ObjectionMeans` | src/application/realtime/MediaRealtimeOutputRunController.cpp:735-756 | A constructed candidate is published exactly if none of nine obstacles stops it; otherwise the first in order is reported |
| `ControllerAdmission.FreeCandidateIsPublished` | src/application/realtime/MediaRealtimeOutputRunController.cpp:757-782 | It becomes an output with the agreed group, generation, deadline and lease, as far as its publication got: a refused subscription or an exception leaves the failure, the graph and the reports as stated; all well it is told and listed Waiting |
| `ControllerAdmission.StoppedCandidateIsRejected` | src/application/realtime/MediaRealtimeOutputRunController.cpp:187-206 | One that is stopped is told and listed Failed with the first obstacle, and leaves no output and no node; a group registered for it alone has failed for the same reason and is waited for |
| `ControllerAgreement.RunKeepsAgreeing` | src/application/realtime/MediaRealtimeOutputRunController.cpp:619-628 | In every run no encoder serves two generations of the source: an output whose branch runs has the generation of its group |
| `ControllerAgreement.RunKeepsConsistent` | src/internal/graph/runtime/threading/MediaRuntimeBranch.cpp:179-235 | In every run a broken branch has a failure, and a closing one belongs to an output that neither waits nor runs |
| `ControllerAgreement.InitialAgrees` | src/application/realtime/MediaRealtimeOutputRunController.cpp:372-389 | Both hold in a freshly started session |
| `ControllerAddition.AdditionBegins` | src/application/realtime/MediaRealtimeOutputRunController.cpp:477-550 | In an idle session `addOutput` is admitted under the next identifier and taken; its preparation has the source's generation, the current graph and version, exactly the groups that can be shared, and its full budget |
| `ControllerAddition.AdditionSucceeds` | src/application/realtime/MediaRealtimeOutputRunController.cpp:846-960 | From the call on: in a session nothing disturbs, with fair and kind surroundings, the added output runs after a bounded number of polls, with the generation, deadline and lease agreed on, listed Running, the slot free, and never reported Failed |
| `ControllerRemoval.PendingCanBeTaken` | src/application/realtime/MediaRealtimeOutputRunController.cpp:939-941 | A pending command can be taken at once, whatever happened before |
| `ControllerRemoval.EveryCommandIsTaken` | src/application/realtime/MediaRealtimeOutputRunController.cpp:939-958 | One call of `poll()` takes it, whatever else happens in the call |
| `ControllerRemoval.RemovalMeans` | src/application/realtime/MediaRealtimeOutputRunController.cpp:784-794 | A removal drains the output of a running branch: told and listed Draining, its failure as it was; a drain that is refused or comes too late fails the branch instead, for the reason stated, and tells nothing; no other output is touched |
| `ControllerRemoval.StopMeans` | src/application/realtime/MediaRealtimeOutputRunController.cpp:976-980 | Stopping an output with a failure of the session records that failure, unless it had one or is being reclaimed; without one a running branch is drained, any other left alone |
| `ControllerRemoval.RemovalLeaves` | src/application/realtime/MediaRealtimeOutputRunController.cpp:947-957 | The removal of a healthy output begins a departure |
| `ControllerRemoval.CleanRemoval` | src/application/realtime/MediaRealtimeOutputRunController.cpp:883-938 | In every run that records no failure of it or of its group a draining output departs: its last report is Retired without an error, and Failed is never reported |
| `ControllerRemoval.CleanRemovalEnds` | src/application/realtime/MediaRealtimeOutputRunController.cpp:208-219 | And it does depart, under fair polls within an explicit bound, with the slot free and the output gone |
| `ControllerRetirement.FailureReachesMembers` | src/application/realtime/MediaRealtimeOutputRunController.cpp:800-809 | A failed group fails every member that has not failed and is not being reclaimed, with its own failure, and nobody else |
| `ControllerRetirement.FailureIsTold` | src/application/realtime/MediaRealtimeOutputRunController.cpp:904-912 | A failed branch is reported in its next poll, once, with its first failure |
| `ControllerRetirement.RetirementIsTold` | src/application/realtime/MediaRealtimeOutputRunController.cpp:913-934 | An output that leaves reports Retired with the first failure of its branch, and without an error exactly if there was none |
| `ControllerRetirement.GroupFailureIsPassedOn` | src/application/realtime/MediaRealtimeOutputRunController.cpp:826-834 | A group that retires with a failure passes it on to the notification that waits for it, if that had none |
| `ControllerRetirement.StoppingOutputRetires` | src/application/realtime/MediaRealtimeOutputRunController.cpp:883-936 | Outside of `finish` too: a stopping output leaves within as many fair rounds as its branch can still take polls |
| `ControllerRetirement.UnusedGroupIsSpent` | src/application/realtime/MediaRealtimeOutputRunController.cpp:810-821 | The poll of an unused group erases it or leaves it draining, never to be joined again |
| `ControllerRetirement.SpentGroupGoes` | src/application/realtime/MediaRealtimeOutputRunController.cpp:822-842 | A draining group is gone for good within as many fair rounds as its branch can still take polls |
| `ControllerOutcome.EveryOutputIsTold` | src/application/realtime/MediaRealtimeOutputRunController.cpp:976-980 | When `finish` has told the outputs to stop, each it found is still there: failed, for the session's reason unless it had another one before, or closing if its branch ran and there was no failure |
| `ControllerOutcome.CauseIsReturned` | src/application/realtime/MediaRealtimeOutputRunController.cpp:978-987 | Given a failure and an output that is alive, `finish` returns a failure, whatever else happens |
| `ControllerOutcome.FinishReturns` | src/application/realtime/MediaRealtimeOutputRunController.cpp:962-988 | If no branch has failed and nothing fails meanwhile, it returns exactly the given failure if some output could still be failed, and none otherwise |
| `ControllerPoll.OutputsComeAfterGroups` | src/application/realtime/MediaRealtimeOutputRunController.cpp:867-883 | When `poll()` reaches the outputs, every group has been polled since the last publication |
| `ControllerFinish.RoundLeavesLess` | src/application/realtime/MediaRealtimeOutputRunController.cpp:981-984 | Every fair round of the loop in `finish` leaves strictly less to wait for |
| `ControllerFinish.PollSettles` | src/application/realtime/MediaRealtimeOutputRunController.cpp:937-938 | After each poll of `finish` a deferred notification still waits for something, or is gone |
| `ControllerFinish.NothingIsLeft` | src/application/realtime/MediaRealtimeOutputRunController.cpp:981-985 | When the loop ends no notification is pending, the slot is free and no output is listed |
| `OutputRunControllerObject.OutputRunController.constructor` | src/application/realtime/MediaRealtimeOutputRunController.cpp:372-389 | The object of a started session is the initial state of the transition system, and valid |
| `OutputRunControllerObject.OutputRunController.Publish` | src/application/realtime/MediaRealtimeOutputRunController.cpp:177-185 | A snapshot goes to the table |
| `OutputRunControllerObject.OutputRunController.Reject` | src/application/realtime/MediaRealtimeOutputRunController.cpp:187-206 | Failed is published, Retired is deferred, and a group registered for the candidate alone is failed and waited for |
| `OutputRunControllerObject.OutputRunController.PublishPendingTerminal` | src/application/realtime/MediaRealtimeOutputRunController.cpp:208-219 | The deferred notification is sent, and the slot freed, once neither preparation nor group is left |
| `OutputRunControllerObject.OutputRunController.AvailableGroups` | src/application/realtime/MediaRealtimeEncodingGroupRegistry.cpp:25-35 | The groups offered for reuse are exactly the published, running, unfailed, undraining ones with a witness |
| `OutputRunControllerObject.OutputRunController.BeginPreparation` | src/application/realtime/MediaRealtimeOutputRunController.cpp:477-550 | The preparation takes its snapshot of graph and version, or is rejected for a missing fact or a worker that could not start |
| `OutputRunControllerObject.OutputRunController.ExpireBudget` | src/application/realtime/MediaRealtimeOutputRunController.cpp:849-857 | An expired budget lists Failed once and leaves the worker its candidate |
| `OutputRunControllerObject.OutputRunController.Judge` | src/application/realtime/MediaRealtimeOutputRunController.cpp:552-635 | The verdict on a planned candidate, check by check, and whether it uses up a group identity: a refusal before a group is chosen does not; the egress account must have room |
| `OutputRunControllerObject.OutputRunController.LookAtPlanned` | src/application/realtime/MediaRealtimeOutputRunController.cpp:858-866 | A planned candidate is admitted for construction, or rejected and its worker released |
| `OutputRunControllerObject.OutputRunController.Insert` | src/application/realtime/MediaRealtimeOutputRunController.cpp:757-782 | The output joins its group; a refused subscription or an exception stops the publication where the program stops it |
| `OutputRunControllerObject.OutputRunController.PublishPrepared` | src/application/realtime/MediaRealtimeOutputRunController.cpp:727-782 | A constructed candidate is refused, or its group registered and its output inserted |
| `OutputRunControllerObject.OutputRunController.LookAtConstructed` | src/application/realtime/MediaRealtimeOutputRunController.cpp:867-875 | A constructed candidate is published or rejected, then its worker released |
| `OutputRunControllerObject.OutputRunController.CollectPreparation` | src/application/realtime/MediaRealtimeOutputRunController.cpp:876-880 | A finished preparation is collected |
| `OutputRunControllerObject.OutputRunController.Drain` | src/application/realtime/MediaRealtimeOutputRunController.cpp:784-794 | A drain is published, or the branch failed |
| `OutputRunControllerObject.OutputRunController.FailMembers` | src/application/realtime/MediaRealtimeOutputRunController.cpp:800-809 | A failed group fails every member that has not failed already, and no other output |
| `OutputRunControllerObject.OutputRunController.EraseGroup` | src/application/realtime/MediaRealtimeOutputRunController.cpp:824-842 | A retired group leaves registry and graph, its counters are kept, its failure reaches the notification that waits for it |
| `OutputRunControllerObject.OutputRunController.PollGroup` | src/application/realtime/MediaRealtimeOutputRunController.cpp:799-842 | One round of the loop over groups is the group step |
| `OutputRunControllerObject.OutputRunController.PollGroups` | src/application/realtime/MediaRealtimeOutputRunController.cpp:796-844 | The loop over groups is a run of group steps with other threads in between |
| `OutputRunControllerObject.OutputRunController.Promote` | src/application/realtime/MediaRealtimeOutputRunController.cpp:885-896 | A waiting output in time and with evidence becomes Running and frees its slot |
| `OutputRunControllerObject.OutputRunController.FailOverdue` | src/application/realtime/MediaRealtimeOutputRunController.cpp:897-900 | An output still waiting at its deadline is failed |
| `OutputRunControllerObject.OutputRunController.NoteFailure` | src/application/realtime/MediaRealtimeOutputRunController.cpp:904-912 | A failed branch makes its output Failed, with that failure, once |
| `OutputRunControllerObject.OutputRunController.Retire` | src/application/realtime/MediaRealtimeOutputRunController.cpp:913-934 | A retired output leaves every structure; its notification is sent or deferred |
| `OutputRunControllerObject.OutputRunController.PollOutputs` | src/application/realtime/MediaRealtimeOutputRunController.cpp:883-936 | The loop over outputs is a run of output steps with other threads in between |
| `OutputRunControllerObject.OutputRunController.TakeCommand` | src/application/realtime/MediaRealtimeOutputRunController.cpp:939-958 | A command is taken only when nothing is outstanding, and begins a preparation, a drain or a rejection |
| `OutputRunControllerObject.OutputRunController.Poll` | src/application/realtime/MediaRealtimeOutputRunController.cpp:846-960 | One call of `poll()` is a run of the transition system, with the other threads' steps anywhere in between, and keeps the invariant |
| `OutputRunControllerObject.OutputRunController.BeginFinish` | src/application/realtime/MediaRealtimeOutputRunController.cpp:965-975 | The mailbox is closed and the command still in it rejected |
| `OutputRunControllerObject.OutputRunController.StopAll` | src/application/realtime/MediaRealtimeOutputRunController.cpp:976-980 | Every output found is still there and has been told to stop: with a failure of the session it has failed, for that reason unless it had failed before; otherwise a running one closes |
| `OutputRunControllerObject.OutputRunController.Finish` | src/application/realtime/MediaRealtimeOutputRunController.cpp:962-988 | `finish` terminates when branches exit within finitely many polls; on return no output, group, preparation, pending notification or listed output is left. The call is a run of rounds, and what it returns is the first failure that run came upon, none exactly if there was none: some failure if it was given one and an output was alive, exactly the given one or none if nothing else failed; a second call does nothing |
| `OutputRunControllerObject.OutputRunController.Aggregate` | src/application/realtime/MediaRealtimeOutputRunController.cpp:1066-1071 | The report is the sum over retired and live branches |
| `RuntimeBranch.NeverTurnsBack` | src/internal/graph/runtime/threading/MediaRuntimeBranch.cpp:227-297 | Failing, draining and polling a branch never turn it back and never change its first failure |
| `RuntimeBranch.PollMakesProgress` | src/internal/graph/runtime/threading/MediaRuntimeBranch.cpp:237-297 | A poll of bounded patience retires a stopping branch or leaves it strictly fewer polls to go |
| `RuntimeBranch.PollMeans` | src/internal/graph/runtime/threading/MediaRuntimeBranch.cpp:237-297 | A running branch is left alone, a failed one is broken, one that drains in silence for too long fails, one whose workers have exited is reclaimed, and retired when that is done |
| `ControlModel.RunKeepsSound` | src/application/realtime/MediaRealtimeOutputControl.cpp:89-125 | In every interleaving of mailbox operations identifiers are positive, only grow and are never reused, an erased one never reappears, the table holds exactly the newest unretired writes, and a stop is final |
| `ControlModel.AdmittedIdsIncrease` | src/application/realtime/MediaRealtimeOutputControl.cpp:22-33 | Of two admissions on one run the later has the larger identifier |
| `ControlModel.SlotHoldsOneCommand` | src/application/realtime/MediaRealtimeOutputControl.cpp:70-81 | Until the admitted command is taken no other is admitted, and taking it yields exactly it |
| `ControlModel.ClaimIsExclusive` | src/application/realtime/MediaRealtimeVideoRunController.cpp:536-558 | Runtime start is claimed at most once and never after a stop |
| `ControlModel.AdditionIsAdmitted` | src/application/realtime/MediaRealtimeOutputControl.cpp:9-34 | An addition is admitted exactly if the session takes changes, the slot is vacant and an identifier is left; it is listed Preparing under the next one and is what will be taken; each refusal says why and changes nothing |
| `ControlModel.RemovalIsAdmitted` | src/application/realtime/MediaRealtimeOutputControl.cpp:36-61 | A removal is admitted exactly if the session takes changes, the slot is vacant and the output is listed |
| `ControlModel.SlotIsReusable` | src/application/realtime/MediaRealtimeOutputControl.cpp:70-87 | However often its command has been taken and completed, the next addition is admitted under the next identifier, until they run out |
| `ControlModel.FirstClaimSucceeds` | src/application/realtime/MediaRealtimeVideoRunController.cpp:550-558 | The first claim before a stop succeeds |
| `ControlModel.OrderedPairs` | src/application/realtime/MediaRealtimeOutputControl.cpp:89-106 | Any two writes for one output are in order: nothing follows Retired, Running occurs once |
| `ControlModel.ForwardMeansPairs` | src/application/realtime/MediaRealtimeOutputControl.cpp:89-106 | Forward, write by write, is the statement about all pairs of writes |
| `RunControlObject.RunControl.AddOutput` | src/application/realtime/MediaRealtimeOutputControl.cpp:9-34 | The command is admitted under the next identifier, or refused for each of the three reasons |
| `RunControlObject.RunControl.RemoveOutput` | src/application/realtime/MediaRealtimeOutputControl.cpp:36-61 | The removal is admitted, or refused for each of the three reasons |
| `RunControlObject.RunControl.OutputSnapshots` | src/application/realtime/MediaRealtimeOutputControl.cpp:63-68 | Callers see each listed output once, in admission order |
| `RunControlObject.RunControl.TakeOutputChange` | src/application/realtime/MediaRealtimeOutputControl.cpp:70-81 | The command moves from the slot into progress |
| `RunControlObject.RunControl.CompleteOutputChange` | src/application/realtime/MediaRealtimeOutputControl.cpp:83-87 | The slot is free |
| `RunControlObject.RunControl.PublishOutputSnapshot` | src/application/realtime/MediaRealtimeOutputControl.cpp:89-106 | The entry is replaced, erased by Retired, and an unknown identifier ignored; the vector stays in admission order |
| `RunControlObject.RunControl.RegisterInitialOutput` | src/application/realtime/MediaRealtimeOutputControl.cpp:108-125 | The initial output gets identifier 1, once |
| `RunControlObject.RunControl.RequestStop` | src/application/realtime/MediaRealtimeVideoRunController.cpp:536-543 | A stop is recorded |
| `RunControlObject.RunControl.TryClaimRuntimeStart` | src/application/realtime/MediaRealtimeVideoRunController.cpp:550-558 | The claim succeeds exactly from Ready |
| `PreparationExchange.HandOffIsExclusive` | src/application/realtime/MediaRealtimePreparationExchange.h:15-45 | Control thread and worker never own the candidate together; while control owns it the worker cannot move |
| `PreparationExchange.RunKeepsValid` | src/application/realtime/MediaRealtimePreparationExchange.h:15-45 | In every interleaving stages only advance and construction happens at most once, after `construct()` |
| `PreparationExchange.ReleasedWorkerCompletes` | src/application/realtime/MediaRealtimePreparationExchange.h:38-45 | Once released, at whatever stage, the worker completes within two of its own moves |
| `PreparationExchange.ReleaseAlwaysWorks` | src/application/realtime/MediaRealtimeOutputRunController.cpp:169-175 | A release sent at any moment of any run brings the worker home |
| `PreparationExchangeObject.Exchange.Planned` | src/application/realtime/MediaRealtimePreparationExchange.h:15-23 | Entering or waking in `planned()` is one worker move |
| `PreparationExchangeObject.Exchange.Constructed` | src/application/realtime/MediaRealtimePreparationExchange.h:24-30 | Entering or waking in `constructed()` is one worker move |
| `PreparationExchangeObject.Exchange.Construct` | src/application/realtime/MediaRealtimePreparationExchange.h:31-37 | The control thread asks for construction |
| `PreparationExchangeObject.Exchange.Release` | src/application/realtime/MediaRealtimePreparationExchange.h:38-44 | The control thread releases the worker |
| `PreparationExchangeObject.Exchange.Complete` | src/application/realtime/MediaRealtimePreparationExchange.h:45-45 | The worker is done |
| `EgressAccount.RunKeepsValid` | src/application/realtime/MediaRealtimeOutputRunController.cpp:221-241 | With releases anywhere between load and add, the counter is the sum of the live leases and within the capacity |
| `EgressAccount.StepKeepsValid` | src/application/realtime/MediaRealtimeOutputRunController.cpp:65-83 | No step wraps the 64-bit counter: a release subtracts what is there, an add adds exactly its bytes |
| `EgressAccount.RejectedGivesBackAll` | src/application/realtime/MediaRealtimeOutputRunController.cpp:629-633 | A rejected candidate leaves the account as if only the other releases had happened |
| `StartPublication.FirstDecisionWins` | src/media_transcode_beta/MediaRealtimeBetaStartPublication.h:16-51 | The first of publish and cancel stands, and the event thread enters only after a publication |
| `StartPublication.DecidedWaiterMoves` | src/media_transcode_beta/MediaRealtimeBetaStartPublication.h:26-34 | Once decided, the waiting event thread enters or leaves |
| `StartPublication.Publication.PublishOwnership` | src/media_transcode_beta/MediaRealtimeBetaStartPublication.h:16-19 | Ownership is published unless the gate is decided |
| `StartPublication.Publication.CancelStart` | src/media_transcode_beta/MediaRealtimeBetaStartPublication.h:21-24 | The start is cancelled unless the gate is decided |
| `StartPublication.Publication.WaitForOwnership` | src/media_transcode_beta/MediaRealtimeBetaStartPublication.h:26-34 | The wait returns with the other threads' first decision |
| `SessionStory.FirstFailureMeans` | src/media_transcode_beta/MediaRealtimeBetaSession.cpp:487-574 | The recorded failure is the first in order: exactly the trouble (a callback raise, a rejected report, the outcome, an exception) of the first moment that has one |
| `SessionStory.NoTroubleMeans` | src/media_transcode_beta/MediaRealtimeBetaSession.cpp:591-594 | None is recorded exactly if no moment has any trouble |
| `SessionStory.StoryIsAScript` | src/media_transcode_beta/MediaRealtimeBetaSession.cpp:596-654 | For every course of a run the session events are STARTING, RUNNING if it was reached, and then ERROR, FAILED and the completion, or STOPPING, COMPLETED and the completion; no output event follows the end |
| `SessionStory.HeardIsAPrefix` | src/media_transcode_beta/MediaRealtimeBetaSession.cpp:663-680 | However the callback raises, the session events it is told are a prefix of that script, and all of the story unless it raises |
| `SessionStory.FailureHasReason` | src/media_transcode_beta/MediaRealtimeBetaSession.cpp:338-369 | Every recorded failure has a completion reason other than NONE |
| `SessionStory.CompletionHasReason` | src/media_transcode_beta/MediaRealtimeBetaSession.cpp:125-150 | Nothing goes wrong only in a run whose outcome has a good end reason |
| `SessionReasons.FirstBadNoticeFails` | src/media_transcode_beta/MediaRealtimeBetaSession.cpp:424-485 | While the controller runs, the recorded failure is that of the first report the session rejects, none exactly if it rejects none |
| `SessionReasons.RunningMeans` | src/media_transcode_beta/MediaRealtimeBetaSession.cpp:457-485 | RUNNING is told exactly if there is a good report of progress before anything is rejected |
| `SessionReasons.ControllerReasonMeans` | src/media_transcode_beta/MediaRealtimeBetaSession.cpp:103-117 | A failure of the controller is a requested stop if it was cancelled or stopped by the caller, otherwise a failure at run time from the first progress on, and at startup before |
| `SessionReasons.ControllerStageMeans` | src/media_transcode_beta/MediaRealtimeBetaSession.cpp:57-85 | A missing capability is reported as such, any other failure at the stage the controller had reached |
| `SessionReasons.PhaseFailureMeans` | src/media_transcode_beta/MediaRealtimeBetaSession.cpp:723-754 | What is raised outside of the controller is placed by the phase the session was in |
| `SessionReasons.RunFailsFor` | src/media_transcode_beta/MediaRealtimeBetaSession.cpp:487-527 | The failure of a run: the first rejected report, then the outcome, its report, and a success without a good reason |
| `SessionReasons.ExceptionFailsFor` | src/media_transcode_beta/MediaRealtimeBetaSession.cpp:560-589 | The failure of a run broken off by an exception: the first rejected report, the failure the controller had signalled, or the exception |
| `SessionReasons.RunEndsFor` | src/media_transcode_beta/MediaRealtimeBetaSession.cpp:125-150 | A session ends without a failure exactly if no report was rejected, outcome and report are good and the run was stopped, came to its end or to its time; the reason is the stop or the completion of the source |
| `BetaSession.Session.RecordFirstFailure` | src/media_transcode_beta/MediaRealtimeBetaSession.cpp:529-534 | The first failure stands; otherwise this one is recorded |
| `BetaSession.Session.RecordEmergencyFailure` | src/media_transcode_beta/MediaRealtimeBetaSession.cpp:536-558 | So with an emergency failure, and nothing is recorded after the terminal state |
| `BetaSession.Session.InvokeCallback` | src/media_transcode_beta/MediaRealtimeBetaSession.cpp:663-680 | A callback that raises is dropped at that event and stops the run, and its exception is recorded unless a failure was before or the session is over; one that does not raise stays |
| `BetaSession.Session.HandleOutputChanged` | src/media_transcode_beta/MediaRealtimeBetaSession.cpp:289-306 | An output change is told, and a second event if the output runs, up to the first raise |
| `BetaSession.Session.HandlePrepared` | src/media_transcode_beta/MediaRealtimeBetaSession.cpp:424-455 | A report the session rejects is recorded, unless a failure was before, and stops the run |
| `BetaSession.Session.HandleProgress` | src/media_transcode_beta/MediaRealtimeBetaSession.cpp:457-485 | The first good report is told as RUNNING; a rejected one is recorded and stops the run, as does any report after a failure |
| `BetaSession.Session.FinishFailure` | src/media_transcode_beta/MediaRealtimeBetaSession.cpp:596-620 | The recorded failure is the one reported, with its reason |
| `BetaSession.Session.FinishSuccess` | src/media_transcode_beta/MediaRealtimeBetaSession.cpp:622-638 | STOPPING is told; the session completes with the given reason unless the callback raises at STOPPING, which is then the failure |
| `BetaSession.Session.HandleOutcome` | src/media_transcode_beta/MediaRealtimeBetaSession.cpp:487-527 | The first failure stands; otherwise the outcome, its report and its reason are judged in this order; it ends COMPLETED, with the reason of the outcome, only if nothing failed |
| `BetaSession.Session.HandleException` | src/media_transcode_beta/MediaRealtimeBetaSession.cpp:338-369 | With nothing recorded before, the controller's own first failure is recorded if it noted one, the exception itself otherwise |
| `BetaSession.Session.EventThread` | src/media_transcode_beta/MediaRealtimeBetaSession.cpp:326-422 | Without ownership nothing happens. With it the recorded failure is the first of the course and the raises; the session ends FAILED with its reason, or COMPLETED with the outcome's; the delivered events are the story of the course up to the first raise, all of it if there is none |
| `BetaSession.Session.EventThreadMain` | src/media_transcode_beta/MediaRealtimeBetaSession.cpp:326-375 | No event is delivered unless the first decision at the gate was to publish ownership; then the session ends as above |
| `SessionOutputs.ReadyMeansRunning` | src/media_transcode_beta/MediaRealtimeBetaSession.cpp:289-306 | OUTPUT_READY is told exactly as often as the controller reports that the output runs |
| `SessionOutputs.ReadyAtMostOnce` | src/media_transcode_beta/MediaRealtimeBetaSession.cpp:303-306 | If the reports are what any run of the controller told its observer, the callback hears OUTPUT_READY of an output at most once, however it raises |
| `SessionOutputs.NothingBadBeforeReady` | src/media_transcode_beta/MediaRealtimeBetaSession.cpp:289-306 | And before that only changes to Preparing, Waiting or Running, unless the run promotes an output that is no longer listed |
| `DescriptionOwnership.NoDescriptionOutlivesItsOutput` | src/media_transcode_beta/MediaRealtimeBetaSession.cpp:222-244 | In every interleaving, repeated reports of one retirement included, the descriptions are exactly those inserted for outputs whose retirement has not been handled: each stays until then and is gone ever after |
| `DescriptionOwnership.DescriptionsFromTheStart` | src/media_transcode_beta/MediaRealtimeBetaSession.cpp:436-438 | So it is from the start of every session, the initial description included |
| `DescriptionOwnership.StepKeepsOwned` | src/media_transcode_beta/MediaRealtimeBetaSession.cpp:289-311 | Each step of a caller or the event thread keeps that ownership |
| `DescriptionOwnership.AdditionIsDescribed` | src/media_transcode_beta/MediaRealtimeBetaSession.cpp:236-244 | A caller that gets the lock admits its output, inserts its description and frees the lock |
| `DescriptionOwnership.RetirementErases` | src/media_transcode_beta/MediaRealtimeBetaSession.cpp:307-310 | A handled retirement erases that description and no other, and frees the lock |
| `LineReader.LineInput.PollLine` | tools/realtime_video_cli/RealtimeCliControlInput.h:73-111 | One call uses at most one read and hands out the next line of the stream, and the buffered line never exceeds the bound |
| `LineReader.LineInput.ReadChunk` | tools/realtime_video_cli/RealtimeCliControlInput.h:120-153 | What a read leaves in the buffer, and when the input is closed |
| `LineReader.PollAll` | tools/realtime_video_cli/RealtimeCliControlInput.h:73-111 | For every stream and every split into reads the results are the stream split at newlines, one trailing CR dropped, one error per over-long record and one for a partial record at the end |
| `LineReader.ByteAppends` | tools/realtime_video_cli/RealtimeCliControlInput.h:76-104 | How one more byte changes the lines of a stream |
| `LineReader.RecordsComeBack` | tools/realtime_video_cli/RealtimeCliControlInput.h:73-104 | Whatever lines are sent, ended by LF or CRLF, come back one by one without their ends; a record over the bound is an error of its own, and what follows the last newline is the rest |
| `CommandTokenizer.Tokenize` | tools/realtime_video_cli/RealtimeOutputControl.h:51-75 | The index loop computes the scan the laws below are about |
| `CommandTokenizer.Composes` | tools/realtime_video_cli/RealtimeOutputControl.h:57-74 | Two lines that tokenize, joined by a space, tokenize to the two results in order |
| `CommandTokenizer.QuotingRoundTrips` | tools/realtime_video_cli/RealtimeOutputControl.h:51-75 | Every list of NUL-free arguments has a quoted form that tokenizes back to it |
| `CommandTokenizer.PlainQuotingRoundTrips` | tools/realtime_video_cli/RealtimeOutputControl.h:60-61 | Double-quoting an argument and escaping its quotes comes back if and only if it has no NUL and does not end in a backslash |
| `CommandTokenizer.WordsTokenize` | tools/realtime_video_cli/RealtimeOutputControl.h:51-75 | Words separated by any white space, each a run of bare and quoted parts, tokenize to exactly what the parts say |
| `CommandTokenizer.BareWordTokenizes` | tools/realtime_video_cli/RealtimeOutputControl.h:68-70 | A word without quotes and white space is itself |
| `CommandTokenizer.GapThen` | tools/realtime_video_cli/RealtimeOutputControl.h:68-69 | After a line that tokenizes and white space come whatever tokens, or error, the rest of the line gives |
| `CommandTokenizer.NulMeans` | tools/realtime_video_cli/RealtimeOutputControl.h:59-59 | A line fails for a NUL byte exactly if it has one |
| `CommandTokenizer.UnclosedQuoteFails` | tools/realtime_video_cli/RealtimeOutputControl.h:72-72 | A quote that is not closed fails the line, whatever words came before |
| `OptionScan.ContainsKey` | tools/common/GraphCliSupport.h:44-52 | Whether the key is in the list |
| `OptionScan.ArgValue` | tools/common/GraphCliSupport.h:18-26 | What follows the first occurrence, or nothing |
| `OptionScan.HasArg` | tools/common/GraphCliSupport.h:34-42 | Whether the key occurs after the command name |
| `OptionScan.RejectUnknownArgs` | tools/common/GraphCliSupport.h:54-76 | The walk that skips values accepts exactly lists of known options with values |
| `OptionScan.AcceptAdd` | tools/realtime_video_cli/RealtimeOutputControl.h:115-128 | The checks of `add` accept exactly the lists of distinct allowed keys, each with a value that is no option |
| `OptionScan.LookUp` | tools/common/GraphCliSupport.h:18-42 | For every accepted `add` and every option the scans agree with the map of its pairs; an option that is not allowed looks absent |

## Left out

- The failure path of `initialize`/`create` and a failed `startInitial`: the model starts from a started session.
- `refreshInitialWitness`: its failures are group failures that may fall anywhere; which groups have a witness is a reading.
- Frame and packet fan-out, subscriptions beyond their success or failure, segment identities, codec parameters and hardware contexts: readings of the step that depends on them.
- `MediaRealtimeOutputPreparer` and `MediaRealtimeSegmentFactory`: planning and construction are arbitrary results, except that a plan only appends nodes absent from its snapshot and reuses only a group it was offered.
- Worker threads, reclamation and retirement prerequisites inside a branch: a reading says after how many polls a stopping branch has exited; `finish` is proved to terminate when that number is bounded.
- The moment at which a rejected candidate's lease is given back inside the worker: the model gives it back when the worker is collected, before anybody can reserve again.
- The error path of a branch's `poll()`: it never returns an error.
- Detail strings and description paths of snapshots.
- Wrap-around of the 64-bit graph version.
- Metrics are one arbitrary cumulative counter; gauges such as active workers are not modelled.
- Observers that throw inside the controller; the session swallows what its callback throws.
- Failing mutex operations, and memory ordering below sequential consistency.
- `waitForStop`, `activeStage` and the controller's first-failure signal beyond its use in the session: easy members.
- The snapshot projector, request mapper and owned configuration of the Beta session; a description is a token.
- The body of `MediaRealtimeVideoRunController::run`: what it reports is an argument of the session.
- Windows console input, backspace editing, and restoring the descriptor flags.
- Commands other than `add`, option parsing after the lookup, and printing.
- BetaSession.Session.HandleOutputChanged: the erasure of a description is modelled in DescriptionOwnership, not in the session object.
- OutputRunControllerObject.OutputRunController.Finish: aborting or stopping the media runtime itself is not modelled.
