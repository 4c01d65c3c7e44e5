# Orca-Strator controller: a verified model

Orca-Strator runs coding campaigns on a repository: Sol (a browser conversation) decides, an executor or a strategy of
parallel workers (SWARM, DAG) does the work, and the controller has to survive crashes at any point without starting the
same work twice, losing commits, or declaring success too early. This project models the controller's hard logic and
proves what it keeps over every input, every run and every place a crash can fall.

Check everything with `dafny verify dfyconfig.toml`.

## How it is laid out

- **Packet graph** (`Digraph`, `PacketOrder`, `DagValidation`): the two independent graph algorithms, the depth-first search
  of `validate` and the ready-list algorithm of `topologicalOrder`, are both measured against one definition of a cycle.
  The order is unique and least as long as no two identifiers collate equal; the random identifiers of packets never do.
- **Integration** (`PacketOutcomes`, `IntegrationReport`, `Integration`): the loop that replays worker commits onto main,
  against an index-based specification of each packet's outcome, and what the finished report means in terms of its inputs.
- **Publication** (`Publication`, `RepositoryLock`): classify, reconcile, commit, push, verify or roll back, over histories
  of patches; and the promise chains that serialize publications and postflight sweeps of one repository.
- **Ownership** (`Ownership`, `OwnershipProtocol`): leases, process records, probes and startup reconciliation, and every
  run of them with spawns, exits, crashes, restarts and reused pids.
- **Durable transitions** (`Transitions`, `OutboxReplay`, `TransitionService`): intents and the outbox. Every committed
  statement is one step, and steps of any callers, replays and crashes interleave freely.
- **Campaign loop** (`CampaignState` is the specification of each handler, `CampaignLoop` the handlers as they work;
  `CampaignSteps`, `CampaignEndings` and `CampaignLedger` say what steps leave alone; `CampaignIterations`,
  `CampaignStarts`, `CampaignDrain`, `CampaignSuccess`, `CampaignGoal` and `CampaignPromises` hold the theorems;
  `CampaignLaws` and `CampaignRequestLaws` say when each step happens and what it leaves in every row). A handler that goes through
  the transition processor may be cut short by a crash between recording its intent and committing its body.
- **Scheduler** (`Scheduler`, `SchedulerProperties`, `SchedulerLaws`), **log sink** (`LogSink`, `LogSinkLaws`), **Sol timeout
  budget** (`SolBudget`, `SolBudgetLaws`).

Each class states its methods by one equation between the new state and a specification function of the old one; the
theorems are about those functions and about runs of them, and the laws pin each function down from its inputs and its
result alone. Git, SQLite, the browser, the clock, process identity and
the operating system are parameters: what they answer, and which of their calls fail, is arbitrary.

### Where the code does less than it says

- `loop/loop-service.ts:1852-1857` calls actor-start replay safe. It is, unless a crash falls inside the start of a run
  that the restart does not reach because a newer run of the repository is active: then the row starts it again
  (`CampaignStarts.InterruptedStartReopensIff`, `CampaignStarts.StartCanBeEnteredTwice`).
- `loop/loop-service.ts:2111-2137` resumes whatever dispatch is active with the single-agent executor. For a strategy's
  dispatch that records a second outcome, and a success without publication (`CampaignSuccess.ResumeCanBypassPublication`;
  exactly when: `CampaignSuccess.SecondOutcomeIff`, `CampaignSuccess.UnpublishedSuccessIff`).
- `ownership/ownership-store.ts:313-318` calls the intent a replayable record; an intent whose body did not commit is never
  applied (`Transitions.OrphansAreNeverApplied`).
- `packets/integration-service.ts:506-513` expects the next publication to overwrite the manifest a rolled-back push leaves
  behind; as an untracked file it makes that publication refuse the work tree (`Publication.RetryIsRefusedIff`).
- `runtime/log-bounded.ts:69-72` counts an unreadable file size as zero, which lets the file pass its bound
  (exactly when: `LogSink.StaysBoundedIff`).
- A browser submission that ends after its operation stalled revives it (`SolBudget.StalledRevivedOnlyByLateSubmission`).

## Model

| member | source | states |
|---|---|---|
| `PacketOrder.TopologicalOrder` | apps/controller/src/packets/integration-service.ts:656-693 | Orders exactly the lists whose dependencies are all present and whose graph has no cycle; reports the first missing dependency, or a cycle exactly when there is one; the order is a permutation with dependencies first, and nothing runnable collates before what was taken |
| `PacketOrder.OrderPresent` | apps/controller/src/packets/integration-service.ts:668-692 | The loop itself: it runs out of ready packets early if and only if the graph has a cycle |
| `PacketOrder.Unlock` | apps/controller/src/packets/integration-service.ts:678-687 | One round strikes the taken packet from every dependency set and leaves exactly the runnable packets queued |
| `PacketOrder.SortSorts` | apps/controller/src/packets/integration-service.ts:672-688 | The ready list is a sorted permutation of what was queued |
| `PacketOrder.GreedyOrderIsLeast` | apps/controller/src/packets/integration-service.ts:672-689 | The order is lexicographically below every topological order of the same packets |
| `PacketOrder.OrderIgnoresInputOrder` | apps/controller/src/packets/integration-service.ts:656-693 | Listing the same packets differently yields the same order |
| `PacketOrder.OrderDeterminedIffCollationSeparates` | apps/controller/src/packets/integration-service.ts:674-688 | The order is determined for every graph over a set of identifiers if and only if the collation tells them apart |
| `PacketOrder.TopologicalIsAcyclic` | apps/controller/src/packets/integration-service.ts:690-692 | A list that can be ordered has no dependency cycle |
| `PacketOrder.IncompleteHasCycle` | apps/controller/src/packets/integration-service.ts:690-692 | Packets left over when nothing is runnable contain a cycle |
| `DagValidation.HasCycle` | apps/controller/src/strategy/dag-execution-service.ts:555-572 | True if and only if the node graph has a directed cycle |
| `DagValidation.CycleSearch.Visit` | apps/controller/src/strategy/dag-execution-service.ts:559-570 | One visit of the depth-first search: a revisited open vertex closes a cycle, a finished vertex lies on none |
| `DagValidation.CheckShape` | apps/controller/src/strategy/dag-execution-service.ts:282-306 | Unique nodes and packets, no self, repeated or unknown dependency: no fault if and only if all of it holds, and otherwise the first one |
| `DagValidation.CheckPackets` | apps/controller/src/strategy/dag-execution-service.ts:309-346 | No fault if and only if every packet exists, belongs to the iteration and has its node's dependencies, and otherwise the first one |
| `DagValidation.Validate` | apps/controller/src/strategy/dag-execution-service.ts:251-348 | Accepts exactly the acceptable requests and hands on the packets of their nodes; rejects any other for the first thing that is wrong with it |
| `DagValidation.AcceptedPacketsOrderable` | apps/controller/src/strategy/dag-execution-service.ts:279-346 | The packets of every accepted request have all dependencies and no cycle, so the ordering algorithm orders them |
| `DagValidation.CycleLiftsToNodes` | apps/controller/src/strategy/dag-execution-service.ts:307-346 | A cycle among the packets of matching nodes would be a cycle among the nodes |
| `PacketOutcomes.MembersIntegrated` | apps/controller/src/packets/integration-service.ts:91-253 | A packet id is listed as integrated if and only if its own outcome is integration |
| `PacketOutcomes.IntegratedIsDependencyClosed` | apps/controller/src/packets/integration-service.ts:123-138 | Every dependency of an integrated packet was integrated before it |
| `PacketOutcomes.IntegratedInOrder` | apps/controller/src/packets/integration-service.ts:91-253 | The integrated ids are a subsequence of the order |
| `PacketOutcomes.SharedPathsAreEmptyPaths` | apps/controller/src/packets/integration-service.ts:139-153 | An integrated packet shares a changed path with an earlier one if and only if both list an empty path |
| `PacketOutcomes.IntegratedPathsDisjoint` | apps/controller/src/packets/integration-service.ts:139-153 | Of schema-valid results, whose paths are never empty, any two that are integrated change disjoint normalised paths |
| `PacketOutcomes.IntegratedIdsDisjoint` | apps/controller/src/packets/integration-service.ts:139-153 | The integrated list of schema-valid results has pairwise disjoint normalised changed paths |
| `PacketOutcomes.CompletedIffIntegrated` | apps/controller/src/packets/integration-service.ts:91-253 | A packet's final result is COMPLETED if and only if it was integrated, and then it contributed the commit it carried |
| `PacketOutcomes.BooksSettled` | apps/controller/src/packets/integration-service.ts:94-221 | After n packets exactly those n have their final result and row, everything else is untouched, and every changed result is saved |
| `PacketOutcomes.PacketReady` | apps/controller/src/packets/integration-service.ts:95-138 | When its turn comes a packet is unsettled and each of its dependencies has its final result |
| `PacketOutcomes.LastCounts` | apps/controller/src/packets/integration-service.ts:36-38 | Of several results for one packet the last one counts |
| `IntegrationReport.NormaliseEqualIff` | apps/controller/src/packets/integration-service.ts:139-141 | Two paths count as one if and only if they differ at most in the direction of their slashes |
| `IntegrationReport.LandsIff` | apps/controller/src/packets/integration-service.ts:123-192 | A packet is integrated if and only if its result is completed, all its dependencies were integrated before it, none of them nor any other integrated packet changed its paths, it names a commit on a branch, the recorded worktree is its own, and git takes the commit |
| `IntegrationReport.SchemaOverlapsIff` | apps/controller/src/packets/integration-service.ts:139-153 | Of schema-valid results any shared path is an overlap |
| `IntegrationReport.PacketIsExplained` | apps/controller/src/packets/integration-service.ts:94-213 | From the report alone: which packets are integrated, and the final result of every other one, COMPLETED, SKIPPED_DEPENDENCY, BLOCKED, INTEGRATION_CONFLICT or as it came in, each if and only if |
| `IntegrationReport.PacketIsRecorded` | apps/controller/src/packets/integration-service.ts:94-213 | Exactly the results that were completed or missing are settled anew: their lifecycle row says how, every one that was not integrated is saved, and nothing is written about anything else |
| `IntegrationReport.ReportIsExplained` | apps/controller/src/packets/integration-service.ts:221-237 | INTEGRATION_CONFLICT if and only if a completed result could not be replayed; COMPLETED if and only if every packet is integrated and no other result is a failure; PARTIAL if and only if something else was integrated |
| `IntegrationReport.CommitsAreAdded` | apps/controller/src/packets/integration-service.ts:184-192 | Main grows by the commit each integrated result names, in the order of the list |
| `Integration.IntegrationService.Integrate` | apps/controller/src/packets/integration-service.ts:28-254 | The whole report, main, the results and the rows as explained from the inputs; a blocked ordering or checkout, like a BLOCKED report, leaves main alone; integrated ids of schema-valid results change disjoint paths |
| `Integration.IntegrationService.IntegrateInOrder` | apps/controller/src/packets/integration-service.ts:91-253 | The loop computes the specified outcomes, results, rows, commits and report status |
| `Integration.IntegrationService.SettlePacket` | apps/controller/src/packets/integration-service.ts:94-231 | One packet: the branches of the loop body agree with its specified outcome, and it joins the integrated ones if and only if nothing stands in its way |
| `Publication.ReconcileIsRemoteThenLocalOnly` | apps/controller/src/packets/integration-service.ts:355-410 | Whatever the ancestry queries answered, a successful reconciliation is the remote history followed by the local-only patches |
| `Publication.AncestryAnswersDoNotMatter` | apps/controller/src/packets/integration-service.ts:616-628 | Spurious negative ancestry answers do not change a successful reconciliation |
| `Publication.ReconcilesIff` | apps/controller/src/packets/integration-service.ts:355-410 | Reconciliation succeeds if and only if the rebase works, or the heads are related in a way git tells and, where local is behind, the fast-forward works |
| `Publication.LocalOnlyExactly` | apps/controller/src/packets/integration-service.ts:634-654 | A rebase replays, of the local patches behind the longest shared history, exactly those the upstream lacks behind it, once each and in order |
| `Publication.WithoutKeepsInOrder` | apps/controller/src/packets/integration-service.ts:634-654 | A rebase replays exactly the patches the upstream lacks, once each and in order |
| `Publication.NoLocalPatchLost` | apps/controller/src/packets/integration-service.ts:634-654 | Every local patch is in the rebased history |
| `Publication.Checkout.PublishToRemoteLocked` | apps/controller/src/packets/integration-service.ts:293-592 | Each result if and only if its commands get that far, with the local head, the remote head and the work tree it leaves; the remote then is the reconciled history plus the manifest made on it; no local patch and no remote commit is ever lost |
| `Publication.ExplanationDetermines` | apps/controller/src/packets/integration-service.ts:293-592 | The table of results and states leaves nothing open: each input has exactly one of each |
| `Publication.RetryIsRefusedIff` | apps/controller/src/packets/integration-service.ts:506-535 | A retry after a rejected push is refused as dirty, and changes nothing, if and only if the rollback worked |
| `Publication.Checkout.ReconcileWithRemote` | apps/controller/src/packets/integration-service.ts:355-410 | Classification, fast-forward and rebase give the specified head, or leave main where it was |
| `Publication.PublishedHistory` | apps/controller/src/packets/integration-service.ts:336-581 | On success the remote is the fetched history, then the local-only patches, then the manifest |
| `RepositoryLock.RunOneAtATimeInOrder` | apps/controller/src/packets/integration-service.ts:600-614 | Over every run, two publications of one repository never run at once, and they run in the order they were requested |
| `RepositoryLock.FirstOpenCallMayRun` | apps/controller/src/packets/integration-service.ts:604-613 | A failed publication never blocks the chain: the first open call is running or may start |
| `RepositoryLock.ForgetKeepsInvariant` | apps/controller/src/loop/iteration-execution-coordinator.ts:308-329 | Removing the sweep lock only while it is still the tail keeps the queue exclusive and in order |
| `RepositoryLock.Locks.ChainCall` | apps/controller/src/packets/integration-service.ts:600-614 | A new call joins behind every call of its repository that is not over, and the queue stays exclusive and in order |
| `RepositoryLock.Locks.ForgetCall` | apps/controller/src/loop/iteration-execution-coordinator.ts:322-328 | The tail is only ever missing when every call of the repository is over, and the queue stays exclusive and in order |
| `Ownership.ActorLeaseService.Acquire` | apps/controller/src/ownership/actor-lease-service.ts:95-189 | A free repository is leased; a held one is refused, as quarantined or as a conflict, and nothing changes |
| `Ownership.ActorLeaseService.Release` | apps/controller/src/ownership/actor-lease-service.ts:219-259 | The lease is gone afterwards if and only if there was none, or this instance held it and every process recorded for this repository has exited or was killed; otherwise it stands quarantined; every other lease stays |
| `Ownership.ActorLeaseService.ReconcileOnStartup` | apps/controller/src/ownership/actor-lease-service.ts:268-373 | A prior lease is gone if and only if each process of its repository has ended or is DEAD to the probe, and there is one or the lease was past ACTIVE; otherwise it is quarantined; the present instance keeps its leases |
| `Ownership.ActorLeaseService.IsReclaimBlocked` | apps/controller/src/packets/worktree-isolation-service.ts:61-81 | Blocked exactly when some record of the repository is not known to be dead |
| `Ownership.ReleaseIff` | apps/controller/src/ownership/actor-lease-service.ts:219-259 | The same of the specification that the protocol runs |
| `Ownership.ReconciliationIff` | apps/controller/src/ownership/actor-lease-service.ts:268-373 | The same of the specified reconciliation |
| `Ownership.PortableProbeIsSound` | apps/controller/src/ownership/process-probe.ts:193-216 | DEAD is never said of a recorded process that still runs |
| `Ownership.WindowsProbeIsSound` | apps/controller/src/ownership/process-probe.ts:290-309 | The same for the Windows probe, if a process that is not found does not run |
| `Ownership.PortableProbeTellsProcesses` | apps/controller/src/ownership/process-probe.ts:193-216 | If evidence tells processes apart: LIVE_MATCH if and only if the recorded process runs, PID_REUSED if and only if another took its pid, DEAD if and only if nothing has it; a pid without a capture stays UNKNOWN |
| `Ownership.WindowsProbeTellsProcesses` | apps/controller/src/ownership/process-probe.ts:290-309 | The same for the Windows probe, whose evidence is the creation date |
| `OwnershipProtocol.EveryRunKeepsInvariant` | apps/controller/src/executor/executor-service.ts:324-404 | Over every possible run, no unleased repository has a live recorded child, and after reconciliation foreign leases are quarantined |
| `OwnershipProtocol.AcquireNeverOverlapsLiveChild` | apps/controller/src/ownership/actor-lease-service.ts:95-189 | A successful acquire finds no recorded child of the repository running |
| `OwnershipProtocol.LiveChildIsLeased` | apps/controller/src/executor/executor-service.ts:269-285 | While a recorded child runs its repository is leased, by the present process or by a quarantine |
| `OwnershipProtocol.PriorLeasesQuarantined` | apps/controller/src/ownership/actor-lease-service.ts:268-373 | After reconciliation every lease left by an earlier process is quarantined |
| `Ownership.ReconciliationIsLeaseByLease` | apps/controller/src/ownership/actor-lease-service.ts:275-371 | Settling prior leases one committed statement at a time gives each what settling them together does |
| `OwnershipProtocol.ReclaimNeverHitsLiveChild` | apps/controller/src/packets/worktree-isolation-service.ts:61-81 | No worktree is reclaimed while a recorded child of its repository runs |
| `OwnershipProtocol.RecordlessQuarantineLastsOneRestart` | apps/controller/src/ownership/actor-lease-service.ts:281-284 | A lease without records is quarantined by the first restart and released by the next |
| `Transitions.AppliedIffCommitted` | apps/controller/src/ownership/transition-service.ts:140-202 | Under any interleaving each body commits at most once, and its intent is APPLIED if and only if the body and all its outbox rows are committed |
| `Transitions.CommitAgrees` | apps/controller/src/ownership/transition-service.ts:179-190 | The transaction keeps intents, commits and rows in agreement |
| `Transitions.OrphansAreNeverApplied` | apps/controller/src/ownership/transition-service.ts:151-163 | An intent whose caller died or failed is never applied later, and enqueueing it again is a no-op |
| `Transitions.CrashOrphansIff` | apps/controller/src/ownership/transition-service.ts:140-202 | A crash orphans exactly the recorded intents that are not applied |
| `Transitions.WithRowsKeeps` | apps/controller/src/ownership/ownership-store.ts:477-505 | Inserting effects keeps all rows, adds each missing effect as a fresh PENDING row, and leaves every effect present |
| `Transitions.WithRowsAddsMissing` | apps/controller/src/ownership/ownership-store.ts:477-505 | A row is added only for an effect that was asked for and has none |
| `Transitions.EffectsEnqueuedOnce` | apps/controller/src/ownership/ownership-store.ts:477-505 | Over every run no effect has two rows |
| `OutboxReplay.ClaimedOnce` | apps/controller/src/ownership/ownership-store.ts:507-516 | Over every run a row is claimed at most once, and of all replays that list it as PENDING only one is handed it |
| `OutboxReplay.SettledRowsAreNotReplayed` | apps/controller/src/ownership/transition-service.ts:204-246 | A row that is DELIVERED or failed is never reopened, and no replay started afterwards is handed it |
| `OutboxReplay.ReplaySettlesListed` | apps/controller/src/ownership/transition-service.ts:204-246 | An uninterrupted replay settles exactly the listed rows and touches no other |
| `OutboxReplay.ReplayOutcome` | apps/controller/src/ownership/transition-service.ts:204-246 | Each row that was PENDING or DELIVERING with fewer than 100 rows of its state before it ends DELIVERED if its delivery succeeded and FAILED_RETRYABLE if it threw, with one more attempt exactly if it was PENDING; every other row is as it was |
| `OutboxReplay.LastDeliveryDecides` | apps/controller/src/ownership/transition-service.ts:216-236 | Over every run, a row is DELIVERED if and only if the last delivery of it that ended succeeded, and FAILED_RETRYABLE if and only if that one threw |
| `OutboxReplay.ListedSound` | apps/controller/src/ownership/ownership-store.ts:566-574 | A listing holds at most 100 rows, in creation order, each in the asked state |
| `OutboxReplay.ListedIff` | apps/controller/src/ownership/ownership-store.ts:566-574 | A row is listed if and only if it is in the asked state and fewer than 100 rows before it are |
| `TransitionService.OrchestrationTransitionService.EnqueueAndApply` | apps/controller/src/ownership/transition-service.ts:140-202 | A call is the insert, mark and commit steps in sequence; it applies exactly when the key is new and the body does not throw |
| `TransitionService.OrchestrationTransitionService.ListByState` | apps/controller/src/ownership/ownership-store.ts:566-574 | The oldest rows in a state, up to the limit |
| `TransitionService.OrchestrationTransitionService.ReplayOutbox` | apps/controller/src/ownership/transition-service.ts:204-246 | The replay loop is the specified sequence of claims, deliveries and outcomes, and settles each due row by the outcome of its own delivery |
| `TransitionService.CallOutcome` | apps/controller/src/ownership/transition-service.ts:140-202 | What a completed call leaves: a new key applied with its rows, or APPLYING if its body threw; a known key changes nothing |
| `CampaignIterations.IterationsAreStarts` | apps/controller/src/loop/loop-service.ts:266-399 | Over every run, a run's iteration is its number of started dispatches, whose iterations are 1, 2, … without gap or repeat |
| `CampaignIterations.DispatchStartsOnce` | apps/controller/src/loop/loop-service.ts:266-399 | No dispatch is started twice, in one run or in two |
| `CampaignIterations.DispatchConsumedIffRunMoved` | apps/controller/src/loop/loop-service.ts:300-399 | A dispatch is consumed if and only if its run moved in the same commit, and how; a stale one changes nothing |
| `CampaignIterations.ConsumedDispatchIsInert` | apps/controller/src/loop/loop-service.ts:266-295 | Once consumed, a dispatch stays consumed and delivering it again never changes anything |
| `CampaignStarts.StartEnteredAtMostOnce` | apps/controller/src/loop/loop-service.ts:1859-1918 | However a start row is redelivered, the coordinator's start is entered at most once per dispatch, if no crash falls inside the start of a run that is not active |
| `CampaignStarts.InterruptedStartReopensIff` | apps/controller/src/loop/startup-reconciler.ts:25-94 | After such a crash and a restart, before the deadline or past it, the row starts again if and only if the restart does not reach its run |
| `CampaignStarts.StartCanBeEnteredTwice` | apps/controller/src/loop/loop-service.ts:1859-1918 | A concrete run that enters the start of one dispatch twice |
| `CampaignDrain.StepDrains` | apps/controller/src/loop/loop-service.ts:812-829 | No step takes a run that drains for a persisted reason anywhere but to a terminal state |
| `CampaignDrain.DrainEndsTerminal` | apps/controller/src/loop/loop-service.ts:300-346 | Over every run, draining lasts until the end or until the run is first found terminal |
| `CampaignSuccess.StrategySuccessIsPublished` | apps/controller/src/loop/loop-service.ts:686-777 | For a strategy dispatch at most one outcome is ever recorded, and a success only if some publication was PUBLISHED and verified, if no resume launches the executor on it |
| `CampaignSuccess.UnpublishedSuccessIff` | apps/controller/src/loop/loop-service.ts:573-632 | A step records the success of an unpublished dispatch if and only if the executor completed it for an active, undrained run |
| `CampaignSuccess.SecondOutcomeIff` | apps/controller/src/ownership/transition-service.ts:257-277 | A step records a second outcome of a dispatch if and only if the executor completes it, with a result or for a drain, for an active run under a key not yet recorded |
| `CampaignSuccess.OutcomeSource` | apps/controller/src/loop/loop-service.ts:686-777 | Every newly recorded outcome comes from the executor, from a strategy completion or from a confirmed retry, the last two only as the first outcome |
| `CampaignSuccess.ResumeCanBypassPublication` | apps/controller/src/loop/loop-service.ts:2111-2137 | A concrete run in which a resumed strategy dispatch gets two outcomes and an unpublished success |
| `CampaignGoal.GoalReachedIff` | apps/controller/src/loop/loop-service.ts:1237-1470 | A step reaches GOAL_COMPLETE if and only if the operator completes the latest run, or a fresh control for exactly this run, iteration and dispatch commits at its boundary |
| `CampaignGoal.GoalHasCause` | apps/controller/src/loop/loop-service.ts:1728-1732 | Over every run, one of the two causes lies behind every GOAL_COMPLETE |
| `CampaignGoal.CompletionsStay` | apps/controller/src/loop/loop-service.ts:686-777 | No executor or strategy completion, live or retried, reaches GOAL_COMPLETE |
| `CampaignGoal.ControlReachesIff` | apps/controller/src/loop/loop-service.ts:1589-1635 | A control completes a run exactly when it validates for it, finds it at its boundary and commits |
| `CampaignGoal.ControlsAppliedOnce` | apps/controller/src/loop/loop-service.ts:1275-1281 | Over every run each Sol control is applied at most once |
| `CampaignLoop.LoopService.OnDispatchDetected` | apps/controller/src/loop/loop-service.ts:251-399 | Correlation, drain boundary and atomic start as specified |
| `CampaignLaws.DispatchLaw` | apps/controller/src/loop/loop-service.ts:251-399 | A dispatch for the active run's next iteration ends its drain at a drain boundary, as STOPPED exactly for a stop without a ceiling, and starts that iteration at a Sol boundary with nobody else at work, each consumed and recorded once; nothing else changes the state but a crash, which leaves the bare intent |
| `CampaignRequestLaws.DeliveryLaw` | apps/controller/src/loop/loop-service.ts:1859-1918 | A start row enters the coordinator if and only if its run waits for exactly this start; the run then executes, or is unavailable if the start was refused |
| `CampaignPromises.StartRowIsSpent` | apps/controller/src/loop/loop-service.ts:1859-1918 | A delivery that gets through enters once, touches one run, and leaves nothing for any later delivery of the row to do |
| `CampaignLoop.LoopService.ApplyIterationCompletion` | apps/controller/src/loop/loop-service.ts:974-1139 | Drain settlement, success or failure in one transaction, keyed by the outcome |
| `CampaignLaws.ExecutorLaw` | apps/controller/src/loop/loop-service.ts:573-632 | What an executor's completion does, by drain and result: which state the run gets, whether the dispatch is consumed, and under which key it is recorded, once |
| `CampaignLaws.StrategyLaw` | apps/controller/src/loop/loop-service.ts:686-777 | The same for a strategy: only a confirmed success counts as one, a partial or blocked strategy blocks the run, a failed one sends it to recovery |
| `CampaignLaws.PostflightLaw` | apps/controller/src/loop/loop-service.ts:786-858 | A held postflight sends exactly a run at work or in a drain to recovery |
| `CampaignLaws.RetryLaw` | apps/controller/src/loop/loop-service.ts:868-966 | A retry is recorded if and only if it is confirmed, its dispatch has no outcome and no actor is at work; it closes the run it carries on if and only if no iteration or no time is left |
| `CampaignPromises.ExecutorCompletionPromise` | apps/controller/src/loop/loop-service.ts:573-632 | An executor's completion touches only its own dispatch and the active run, which it ends, short of the goal, if and only if it failed, has no result or finds a drain, in a new transaction that commits |
| `CampaignPromises.StrategyCompletionIsIdempotent` | apps/controller/src/loop/loop-service.ts:686-777 | Reporting a strategy's completion again changes nothing |
| `CampaignPromises.UnconfirmedIsNotRecorded` | apps/controller/src/loop/loop-service.ts:724-758 | A completed strategy without a confirmed publication consumes nothing, records nothing and touches only its run |
| `CampaignPromises.PostflightBlockedReleases` | apps/controller/src/loop/loop-service.ts:786-858 | Only a run at work or draining goes to RECOVERY_REQUIRED; a drain is left with its reason gone and both marks clear; every other run is untouched |
| `CampaignLoop.LoopService.CompletePostflightRetry` | apps/controller/src/loop/loop-service.ts:868-966 | A confirmed retry is recorded once, never over a run in flight, and continues only a run in recovery |
| `CampaignLoop.LoopService.ContinueCompletedIteration` | apps/controller/src/loop/loop-service.ts:1160-1234 | The two gates pass through DRAINING and leave neither a drain reason nor a pending mark |
| `CampaignLoop.LoopService.OnControlDetected` | apps/controller/src/loop/loop-service.ts:1237-1470 | Rejection, drain settlement or decision, applied with the control in one transaction |
| `CampaignLaws.ControlLaw` | apps/controller/src/loop/loop-service.ts:1237-1470 | A fresh control that fits its run is applied once, with the state it asks for or the end of a drain; one that does not fit, or wants the goal of a run at work, is rejected; an unexplained drain makes it wait |
| `CampaignLoop.LoopService.ValidateSolControl` | apps/controller/src/loop/loop-service.ts:1589-1635 | Valid if and only if the control matches its target in every respect |
| `CampaignLoop.LoopService.SettleAtBoundary` | apps/controller/src/loop/loop-service.ts:318-338 | A ceiling outranks a stop; a stop it outranked stays pending |
| `CampaignLoop.LoopService.FinishWake` | apps/controller/src/loop/loop-service.ts:1955-2071 | A late wake respects a drain or a closed run it finds when it reads the run again |
| `CampaignRequestLaws.WakeLaw` | apps/controller/src/loop/loop-service.ts:1955-2071 | After a wake a run that was stopped, closed or drained meanwhile is as it was; any other is reviewed, stalled or in need of attention, each exactly when |
| `CampaignLoop.LoopService.HandleWallClockCeiling` | apps/controller/src/loop/loop-service.ts:2262-2333 | A run at work drains, any other is closed at once |
| `CampaignRequestLaws.CeilingLaw` | apps/controller/src/loop/loop-service.ts:2262-2333 | The deadline puts exactly a run at work, or one with a paused strategy, into a drain, and closes any other |
| `CampaignRequestLaws.StopLaw` | apps/controller/src/loop/loop-service.ts:2154-2188 | A stop drains exactly a run at work, in a drain or with a strategy, and stops any other at once |
| `CampaignRequestLaws.PauseLaw` | apps/controller/src/loop/iteration-execution-coordinator.ts:583-627 | A pause is granted if and only if no stop or ceiling is due and Sol is not reviewing on its own |
| `CampaignRequestLaws.ResumeLaw` | apps/controller/src/loop/loop-service.ts:2111-2137 | Exactly a paused run with a strategy or a dispatch is resumed; the executor is launched on that dispatch if and only if no strategy carries on |
| `CampaignRequestLaws.RecoverLaw` | apps/controller/src/loop/loop-service.ts:1701-1752 | Exactly the latest run, if it needs an operator, is stopped, completed or handed back to Sol |
| `CampaignPromises.StopReachesBoundary` | apps/controller/src/loop/loop-service.ts:2154-2188 | A stop leaves the active run stopped, or draining so that its next boundary ends it as STOPPED unless a ceiling comes first; every other run is untouched |
| `CampaignPromises.PauseIsRefusedDuringDrain` | apps/controller/src/loop/iteration-execution-coordinator.ts:583-627 | A pause never cancels a drain and never interrupts a Sol review |
| `CampaignPromises.KillEndsOneRun` | apps/controller/src/loop/iteration-execution-coordinator.ts:687-712 | A kill ends one run and touches no other run, dispatch, recorded outcome or start row; none of the run's start rows gets through afterwards |
| `CampaignPromises.PauseResumeRoundTrip` | apps/controller/src/loop/loop-service.ts:2111-2137 | Pausing an executing run and resuming it restores the whole state, but for one more launch of the executor |
| `CampaignPromises.RecoveryTouchesLatestRun` | apps/controller/src/loop/loop-service.ts:1701-1752 | Only the latest run changes, if and only if it needs an operator and no postflight evidence takes over; GOAL_COMPLETE exactly by completing, Sol exactly by a retry |
| `CampaignLoop.LoopService.StartUp` | apps/controller/src/loop/startup-reconciler.ts:25-94 | Drain marks restored, the deadline enforced, an interrupted executor turn sent to recovery |
| `CampaignRequestLaws.RestartLaw` | apps/controller/src/loop/startup-reconciler.ts:25-94 | Before the deadline a restart sends exactly an executor's turn to recovery, and gives a drain back the mark of its reason |
| `CampaignRequestLaws.LateRestartLaw` | apps/controller/src/loop/loop-service.ts:211-249 | Past the deadline it closes the run that was active unless that never left IDLE, and nothing else if that was the only open one |
| `SchedulerProperties.EveryRunKeepsInvariant` | apps/controller/src/scheduler/scheduler-service.ts:18-65 | After every operation sequence each limit holds, every queued request is blocked by some limit, and nothing is both active and queued |
| `SchedulerProperties.BlockingIsMonotone` | apps/controller/src/scheduler/scheduler-service.ts:144-156 | Admitting another request never unblocks anyone |
| `SchedulerProperties.PassKeepsInvariant` | apps/controller/src/scheduler/scheduler-service.ts:125-142 | One pass over the queue leaves only blocked requests in it |
| `SchedulerProperties.IndexAgreesWithoutRestart` | apps/controller/src/scheduler/scheduler-policy-store.ts:47-78 | Without a restart, active means ADMITTED and queued means QUEUED in the durable table, and the other way round |
| `SchedulerProperties.RestartAgreesIff` | apps/controller/src/scheduler/scheduler-service.ts:67-94 | A restart keeps that agreement if and only if no row is QUEUED and every ADMITTED row was listed |
| `SchedulerProperties.NeverOvertaken` | apps/controller/src/scheduler/scheduler-service.ts:125-142 | Of two requests with the same demands, the one queued later is only active once the earlier one is |
| `Scheduler.SchedulerService.Admit` | apps/controller/src/scheduler/scheduler-service.ts:18-56 | Admission as specified, with the limit that first blocked a request remembered |
| `Scheduler.SchedulerService.Release` | apps/controller/src/scheduler/scheduler-service.ts:58-65 | Release, then one pass over the queue |
| `Scheduler.SchedulerService.AdmitQueued` | apps/controller/src/scheduler/scheduler-service.ts:125-142 | The loop over the changing queue is the specified pass |
| `SchedulerLaws.BlockedIff` | apps/controller/src/scheduler/scheduler-service.ts:144-156 | A request is blocked if and only if some limit is reached, by count or demand, and then by the first in order |
| `SchedulerLaws.AdmitLaw` | apps/controller/src/scheduler/scheduler-service.ts:18-56 | Admitted if and only if there is room under every limit, otherwise queued if the policy queues and rejected if not; the limit that first blocked it stays on record |
| `SchedulerLaws.PassLaw` | apps/controller/src/scheduler/scheduler-service.ts:125-142 | A waiting request is admitted if and only if there is room beside those active and those admitted before it; the others keep their order, and only the rows of the admitted change |
| `SchedulerLaws.ReleaseLaw` | apps/controller/src/scheduler/scheduler-service.ts:58-65 | A release forgets its request and gives every waiting one its turn in order; nobody else moves |
| `SchedulerProperties.RestartMarksStaleIff` | apps/controller/src/scheduler/scheduler-service.ts:67-94 | A restart changes exactly the listed rows that were ADMITTED, keeps the remembered limit of every row, and empties memory |
| `LogSink.SessionKeepsSuffix` | apps/controller/src/runtime/log-bounded.ts:56-146 | For every write sequence, failed rotations included, previous file followed by active file is a suffix of the initial contents and all accepted lines |
| `LogSink.StaysBoundedIff` | apps/controller/src/runtime/log-bounded.ts:69-131 | For a set of calls that may fail, every session stays within the bound if and only if the bound is zero bytes, or neither the first size query nor, with a rotation that can fail, the one after it may fail |
| `LogSink.SessionStaysBounded` | apps/controller/src/runtime/log-bounded.ts:115-131 | Under that condition the active file never exceeds the larger of its initial size and the bound minus one plus the longest line |
| `LogSink.Session` | apps/controller/src/runtime/log-bounded.ts:56-146 | A sink that really opens, rotates and writes has both properties |
| `LogSink.FailedStatEscapes` | apps/controller/src/runtime/log-bounded.ts:69-72 | After a failed size query at start-up the next line goes past the bound |
| `LogSink.FailedRestatEscapes` | apps/controller/src/runtime/log-bounded.ts:93-108 | So it does after a failed rotation whose size query failed too |
| `LogSink.BoundedLogSink.Rotate` | apps/controller/src/runtime/log-bounded.ts:93-108 | A rotation that fails half-way keeps the active file |
| `LogSink.BoundedLogSink.Write` | apps/controller/src/runtime/log-bounded.ts:115-131 | An accepted line is appended whole, a refused one adds nothing, and neither takes the file past its bound if no size query fails |
| `LogSinkLaws.WriteLaw` | apps/controller/src/runtime/log-bounded.ts:115-131 | A write rotates if and only if the known size has reached the maximum, and accepts its line if and only if it can be written and no rotation it needed failed; both files and the counter afterwards |
| `LogSinkLaws.StartLaw` | apps/controller/src/runtime/log-bounded.ts:56-91 | A new sink rotates if and only if the file is known to be past its maximum |
| `SolBudget.AtMostOneResubmission` | apps/controller/src/browser/browser-manager.ts:666-713 | Across restarts and timer firings one wake is resubmitted for a timeout at most once |
| `SolBudget.SecondExpiryStalls` | apps/controller/src/browser/browser-manager.ts:704-746 | The next expired check that does not find it busy stalls it |
| `SolBudgetLaws.ExpiryLaw` | apps/controller/src/browser/browser-manager.ts:666-713 | Over every run, the check that finds an operation overdue resubmits its wake if and only if that was never resubmitted, and stalls it if and only if it was |
| `SolBudgetLaws.RehydrateLaw` | apps/controller/src/browser/browser-manager.ts:759-837 | What a restart makes of the stored operation, by its status, deadline and budget |
| `SolBudgetLaws.FinishLaw` | apps/controller/src/browser/browser-manager.ts:412-515 | What the answer to a submission in flight does to the stored operation and its wake |
| `SolBudget.StalledRevivedOnlyByLateSubmission` | apps/controller/src/browser/browser-manager.ts:759-837 | A stalled operation becomes active again if and only if a submission already in flight ends without failing; no rehydration revives it |
| `SolBudget.BrowserManager.CheckSolTimeouts` | apps/controller/src/browser/browser-manager.ts:666-713 | One resubmission, then the stall |
| `SolBudget.BrowserManager.RehydrateFromStore` | apps/controller/src/browser/browser-manager.ts:759-837 | Rehydration as specified; a stalled row is left alone |
| `SolBudget.BrowserManager.BeginSubmit` | apps/controller/src/browser/browser-manager.ts:412-460 | The same wake intent reuses its operation, any other gets a fresh budget |

## Left out

- PacketOrder.TopologicalOrder: packets have distinct ids, as the keyed packet table provides them.
- Publication over merge commits: histories are sequences of patches, `git rebase` replays the patches the upstream lacks, an aborted rebase restores main, and a manifest whose write fails leaves no file.
- Publish-retry liveness: nothing promises that a retry ever succeeds.
- The microtask between a publication's end and its lock's tail settling; the two are one event.
- Lease liveness: reconciliation does not mark dead records terminal, so a later release may quarantine again.
- Children that never got a process record: lease safety is about recorded children.
- More than one controller process at a time: the singleton lock is assumed to keep them apart.
- A crash between a child's spawn and the insertion of its record is a foreign process and a crash; the child is unrecorded.
- OwnershipProtocol.RecordlessQuarantineLastsOneRestart: shows that quarantine is not permanent, so no permanence is stated.
- Ownership.WindowsProbeIsSound: assumes that a process the query does not find does not run.
- Interleaving of other callers inside one SQLite transaction; a transaction is one step.
- Exactly-once application and delivery of transitions: an orphaned intent is never applied and a failed row never listed again, so only at-most-once is stated.
- Handlers whose transaction throws and then fall through to the wiring without transition processor or coordinator; that wiring as a whole.
- Awaits inside pause, resume, the PAUSED control and the startup sequence: each is one step, so a stop racing them is not modelled; neither is a crash inside the manual strategy start, which is one step as well.
- CampaignSuccess.StrategySuccessIsPublished: a dispatch handed to the executor through the raw executor routes is not modelled.
- `LoopService.drainRun`, which has no caller; of the coordinator's shutdown only its effect on runs, which is that of a kill.
- An iteration bound: the wired completion path passes no ceiling gate, so none is stated.
- Campaigns and Sol operations of several repositories at once: the loop and the Sol budget are modelled for one repository.
- The raw executor start route, the strategy engines and the repository watcher: they are the environment that calls the handlers.
- Scheduler policy changes and recovery with confirmed owners: the policy is fixed and recovery confirms none.
- LogSink.Session: a partial write of a line is not modelled, a line is written whole or not at all.
- Events, audit records, error texts, timestamps, HTTP routes, the user interface, SQL text and schema validation.
