# Affective belief persistence: a verified model

This project models four parts of the affective-belief-persistence experiment and proves what they promise.
`dafny verify dfyconfig.toml` checks everything.

**Orchestration** (`Graph`, `Scopes`, `Leases`, `Lifecycle`, `Workflow`, `Registry`, `Supervision`, `Waves`, `Supervisor`,
`DeadEnds`).
A single-writer scheduler runs a task graph in waves of at most three workers, with path leases, retries, failure
propagation, checkpoints and crash recovery. The class `Supervisor` is the program: each method moves its fields step by
step. Workers, the budget account, the clock and interruptions are arbitrary. Main results: a run terminates and all its
lives together complete at most as many waves as there are attempts granted; every checkpoint loads although no update on
the way was validated; no task starts before its dependencies; a run gives up exactly in the situations named; the scheduling
order is the least topological order; leases exclude each other.

**Memory, treatment and harness** (`World`, `Episodes`, `Beliefs`, `Retrieval`, `MemoryRuntime`, `Interventions`, `Harness`,
`NonInterference`, `Execution`, `Cells`). A cell of the experiment lives forty days. Simulation, memory, treatment and model
ledgers advance together, roll back together, and are restored from one pointer. `Harness` says what a day is, as a function
of the four ledgers; the classes of `Execution` and `Cells` carry it out in place, with an exception allowed at any point,
and are proved to do that or nothing. Main results: a resumed run is the uninterrupted run; a failed day leaves no trace and
a retry is a first try; arms that differ in treatment agree before day 30, and an arm whose treatment did nothing agrees with
the untreated arm for ever; there is exactly one treatment record and it is isolated to its layer.

**Statistics** (`Holm`, `Recovery`), over the reals. Holm's running maximum is the closed test; the restricted mean of the
Kaplan-Meier curve is the average time to recovery exactly when nobody is lost early.

**Accounts** (`EvaluationRunner`, `PilotBudget`). Runs resumed in slices execute everything once; reservations balance over
any sequence of calls.

`Wrappers` and `Ordering` are shared helpers: optional values, string order, stable sorting.

## Conventions

- A digest is modelled as the value it is the digest of, so digests are injective and nothing else is assumed of them. A
  lease identifier is the tuple it is hashed from, a ledger digest is its chain, a pointer holds the components it binds.
- A method of a class that changes state is proved equal to a function of the old state (`AcquireSpec`, `ReframeSpec`,
  `CommitMem`, `CommitDay`, `RunDay`, `StepCell`); the lemmas named in the table are about that function.
- An exception is an explicit result: `None`, `false`, or a named error. What an exception leaves behind is modelled too.
- Times are integers, or reals where elapsed time is compared with a limit. A clock never goes back. A lease expires during
  a wave if the clock says so, and that is one of the outcomes of `Supervisor.Run`.
- The order in which workers finish is lost, because results are kept by task and applied in task order.

## Where the code differs from what a reader might expect

- Scope canonicalisation relies on `p/**` sorting before everything under `p`. That holds only for names starting above `*`;
  `Scopes.CanonicalKeepsCoverageIff` gives the exact condition and `Scopes.EarlyChildExample` a request that loses coverage.
- A budget escalation while leasing is not progress. The no-progress error follows exactly when nothing was skipped and nothing
  is left to propagate (`Supervisor.Supervisor.WithoutWave`), which is exactly when no task still waiting has a failed
  requirement or requires a task just escalated (`DeadEnds.NothingLeftIff`). `DeadEnds.BudgetStallIsReached` leads to such a
  state, and `DeadEnds.BudgetStallExample` is the supervisor in it.
- Propagation looks at required dependencies, readiness at optional ones too: a task with an escalated optional dependency
  waits for ever, unless a required one fails (`DeadEnds.DeadEndIff`, `DeadEnds.DeadEndIsForEver`). `DeadEnds.DeadEndIsReached`
  leads to such a state, and `DeadEnds.DeadEndExample` is the supervisor in it.
- `recover_to_ready` keeps the attempt count. Attempts are those retried, those a crash cut short, and the one at hand, so they
  exceed the maximum exactly when that sum does; the retry count cannot (`Supervision.CheckpointPrecedence`,
  `DeadEnds.ExtraAttemptExample`).
- The branch of `reframe` that returns an existing reframing cannot be reached (`Episodes.ReframeIsNeverRepeated`).
- A failed memory commit on any day but 30 leaves in the live memory what was written before the failure
  (`Interventions.InterventionRuntime.CommitAfterStep`, `MemoryRuntime.FailedCommitUnchangedIff`,
  `MemoryRuntime.HalfWrittenExample`); only the cell's rollback undoes it (`Cells.CellExecution.Step`).
- The restricted mean is the average time exactly when nobody unrecovered leaves before the horizon, and larger otherwise
  (`Recovery.RestrictedMeanIsAverageIff`, `Recovery.LostEarlyExample`).

## Model

| member | source | states |
|---|---|---|
| `Graph.TopologicalOrder` | src/affective_belief_persistence/orchestration/graph.py:65-88 | The sort refuses a graph if and only if it has a dependency cycle; otherwise it lists every declared task once, dependencies first, always taking the smallest available identifier. |
| `Graph.Release` | src/affective_belief_persistence/orchestration/graph.py:79-83 | Releasing the dependents of one task lowers each one's count once and inserts exactly those that reach zero into the sorted list. |
| `Graph.StuckMeansCycle` | src/affective_belief_persistence/orchestration/graph.py:85-87 | When the sort stops short, the tasks left over contain a cycle (a walk among them must repeat). |
| `Graph.OrderedIsAcyclic` | src/affective_belief_persistence/orchestration/graph.py:65-88 | No graph that has a topological order has a cycle. |
| `Graph.GreedyIsLeast` | src/affective_belief_persistence/orchestration/graph.py:65-88 | The order taken is lexicographically least among all topological orders of the graph. |
| `Scopes.OverlapIffSharedPath` | src/affective_belief_persistence/orchestration/leases.py:93-112 | Two scopes overlap exactly when some concrete path lies in both; the test is symmetric. |
| `Scopes.TextPrefixMeansPathPrefix` | src/affective_belief_persistence/orchestration/registry.py:75-87 | A prefix of the rendered text, ended by the separator, is a prefix component by component. |
| `Scopes.AllowedIffCovered` | src/affective_belief_persistence/orchestration/registry.py:75-87 | The registry's string-prefix test holds exactly when an allowed scope covers the path, and exactly when the lease manager's overlap test holds for the single-file scope. |
| `Scopes.CanonicalScopes` | src/affective_belief_persistence/orchestration/leases.py:115-126 | The loop keeps, in sorted order, each scope that no kept subtree overlaps. |
| `Scopes.CanonicalKeepsCoverageIff` | src/affective_belief_persistence/orchestration/leases.py:115-126 | Kept scopes are requested ones, and they cover the same paths as the request if and only if no outermost subtree has a descendant whose next component sorts before `**`. |
| `Scopes.DroppedLiesInsideIff` | src/affective_belief_persistence/orchestration/leases.py:115-126 | Every dropped scope lies inside a kept subtree if and only if the same condition holds. |
| `Scopes.OrdinaryNamesAreSafe` | src/affective_belief_persistence/orchestration/leases.py:115-126 | Components that start above `*` always satisfy that condition. |
| `Scopes.EarlyChildExample` | src/affective_belief_persistence/orchestration/leases.py:115-126 | Without the condition coverage is lost: `a/**` is dropped in favour of `a/!b/**`. |
| `Registry.Select` | src/affective_belief_persistence/orchestration/registry.py:186-214 | The selected agent is eligible and has the smallest identifier among the eligible; none is reported only when there is none; a directory pattern among the paths raises as soon as a fitting agent would be asked about it. |
| `Registry.AllowedMeansCovered` | src/affective_belief_persistence/orchestration/registry.py:116-129 | An agent that passes the path check covers every requested path. |
| `Leases.PathLeaseManager.Expire` | src/affective_belief_persistence/orchestration/leases.py:152-161 | Removes exactly the leases expired at that instant, and returns them. |
| `Leases.PathLeaseManager.Acquire` | src/affective_belief_persistence/orchestration/leases.py:181-254 | Result and new table agree with the acquire specification: malformed requests, capacity, conflicts and grants, expiry first. |
| `Leases.PathLeaseManager.Heartbeat` | src/affective_belief_persistence/orchestration/leases.py:256-282 | Renews a live lease of its owner and nothing else; every refusal leaves only the expiry behind. |
| `Leases.PathLeaseManager.Release` | src/affective_belief_persistence/orchestration/leases.py:284-315 | Drops the lease or leases named, for their owner only; every refusal leaves only the expiry behind. |
| `Leases.OverlapIsIntersection` | src/affective_belief_persistence/orchestration/leases.py:219-235 | The conflict test between two lists of scopes holds exactly when they share a concrete path. |
| `Leases.StepKeepsExclusion` | src/affective_belief_persistence/orchestration/leases.py:152-315 | Acquire, heartbeat, release and expire each keep exclusion and the worker bound. |
| `Leases.ExclusionOverAnyHistory` | src/affective_belief_persistence/orchestration/leases.py:129-315 | After any sequence of operations at any times, leases of different agents that are not both reads or both shared cover disjoint paths, and at most the allowed number of agents is active. |
| `Leases.GrantCoversRequestIff` | src/affective_belief_persistence/orchestration/leases.py:181-254 | A granted lease covers exactly the requested paths if and only if the request is safe to canonicalise. |
| `Leases.EmptyTableGrants` | src/affective_belief_persistence/orchestration/leases.py:181-254 | With no lease held, a well-formed request is never refused. |
| `Lifecycle.MoveStaysValidIff` | src/affective_belief_persistence/orchestration/state.py:94-198 | An unvalidated transition yields a snapshot the validator accepts exactly when a blocked task gets a blocker, outputs are distinct, and outputs are not paired with a failure reason. |
| `Lifecycle.RecoveryStaysValid` | src/affective_belief_persistence/orchestration/state.py:200-220 | Recovering an active task yields a snapshot the validator accepts. |
| `Lifecycle.ValidateHistory` | src/affective_belief_persistence/orchestration/events.py:79-93 | The one-pass validator accepts exactly the logs with matching workflow, contiguous sequence numbers, unique identifiers and non-decreasing times. |
| `Lifecycle.AppendValidIff` | src/affective_belief_persistence/orchestration/events.py:99-110 | On a valid log the append checks hold exactly when the longer log is valid. |
| `Lifecycle.RecordingKeepsLogCurrent` | src/affective_belief_persistence/orchestration/scheduler.py:287-311 | Whatever the supervisor records next passes the append checks and keeps the log valid up to the present. |
| `Workflow.SupervisorMoveKeepsTasksOk` | src/affective_belief_persistence/orchestration/scheduler.py:313-348 | Every move the scheduler makes keeps all tasks valid, their attempt counts exact, and the dependencies of every started task done. |
| `Workflow.RecoveryKeepsTasksOk` | src/affective_belief_persistence/orchestration/scheduler.py:370-386 | Crash recovery of a task keeps the same, with the attempt it cuts short counted. |
| `Workflow.WorkLeftWithinBudget` | src/affective_belief_persistence/orchestration/scheduler.py:756-811 | The termination measure is never negative and never exceeds the attempts granted to all tasks. |
| `Workflow.DependenciesHaveEnded` | src/affective_belief_persistence/orchestration/graph.py:105-122 | Every dependency, required or optional, of the first open task in scheduling order has ended. |
| `Workflow.NothingReadyMeans` | src/affective_belief_persistence/orchestration/graph.py:105-139 | When nothing is active or ready, the first open task has a failed requirement or an escalated option. |
| `Workflow.CompletedAllTheWay` | src/affective_belief_persistence/orchestration/graph.py:105-122 | Along any chain of required dependencies from a completed task, every task is completed. |
| `Supervision.InitialStateIsSound` | src/affective_belief_persistence/orchestration/state.py:263-295 | A new workflow state meets the whole invariant. |
| `Supervision.MovedStateIsSound` | src/affective_belief_persistence/orchestration/scheduler.py:313-348 | A recorded transition keeps the whole invariant: tasks, event log, handoffs and artifacts. |
| `Supervision.CheckpointedStateIsOk` | src/affective_belief_persistence/orchestration/scheduler.py:350-368 | What a checkpoint writes meets the checkpoint invariant and only extends the event log. |
| `Supervision.CheckpointLoads` | src/affective_belief_persistence/orchestration/scheduler.py:260-272 | A checkpoint meeting that invariant passes every validator applied when it is read back, and its tasks are the workflow's. |
| `Supervision.CheckpointPrecedence` | src/affective_belief_persistence/orchestration/graph.py:105-122 | In every checkpoint, a task that is ready, active, retrying or completed has its dependencies done; retries stay below the maximum; attempts are exactly those retried, those a crash cut short, and the one at hand, if any. |
| `Supervision.RecoveryKeepsLeft` | src/affective_belief_persistence/orchestration/scheduler.py:370-386 | Resuming leaves exactly the remaining rounds the checkpoint had. |
| `Supervision.RecoveredIsIdle` | src/affective_belief_persistence/orchestration/scheduler.py:370-386 | After recovery no task is active and every gate still agrees with its task. |
| `Waves.AcquireMeans` | src/affective_belief_persistence/orchestration/scheduler.py:434-486 | A grant adds one lease that conflicts with none of the live ones; a refusal leaves the live leases and has a reason among them: the agent would be one too many, or a live lease on a common path stands in the way. |
| `Waves.WaveSharesNoPath` | src/affective_belief_persistence/orchestration/scheduler.py:767-779 | Two tasks of a wave whose leases overlap in time have different agents and declare no common path; that their files cannot lose coverage follows from their agents having been allowed them. |
| `Waves.RefusedClashes` | src/affective_belief_persistence/orchestration/scheduler.py:768-779 | While there is room for another worker, a task that an agent could take is refused only for a path leased to the wave. |
| `Waves.AfterMarking` | src/affective_belief_persistence/orchestration/scheduler.py:765-784 | Once marked, an idle unfinished workflow has a ready task, or a failure to propagate, or its first open task waits on an escalated option. |
| `Waves.GivingUpMeansStalled` | src/affective_belief_persistence/orchestration/scheduler.py:780-784 | When the loop gives up, no agent, busy or not, may take any of the ready tasks; if none is ready, everything has ended and some task was just escalated over budget, or the first open task waits on an escalated option. |
| `Waves.SortedWave` | src/affective_belief_persistence/orchestration/scheduler.py:789-791 | Sorting a wave by task identifier keeps its tasks, its agents and its place in the lease table. |
| `Waves.ApplyingUsesARound` | src/affective_belief_persistence/orchestration/scheduler.py:642-687 | Any applied result, whether completion, retry or escalation, uses up at least one remaining round of its task. |
| `Waves.AppliedKeepsGates` | src/affective_belief_persistence/orchestration/scheduler.py:642-687 | A gate is true exactly when its task is completed, before and after a result is applied. |
| `Waves.ReleaseFirst` | src/affective_belief_persistence/orchestration/scheduler.py:681-686 | Releasing a wave's lease succeeds unless that lease has expired, and leaves exactly the other leases of the wave. |
| `Supervisor.Supervisor.Create` | src/affective_belief_persistence/orchestration/scheduler.py:214-245 | A new run starts idle with the invariant established, and the first checkpoint on disk is its state. |
| `Supervisor.Supervisor.Resume` | src/affective_belief_persistence/orchestration/scheduler.py:201-245 | Resuming a checkpoint never rejects it; interrupted tasks become ready, counters are kept, the event log only grows, and gates, artifacts and handoffs stay; the checkpoint on disk keeps its own count of attempts cut short. |
| `Supervisor.Supervisor.RecoverInterrupted` | src/affective_belief_persistence/orchestration/scheduler.py:370-386 | Every active task is recovered and counted once; every other task and ledger is untouched. |
| `Supervisor.Supervisor.Record` | src/affective_belief_persistence/orchestration/scheduler.py:287-311 | Appends exactly one event at the present time and changes nothing else. |
| `Supervisor.Supervisor.MoveTask` | src/affective_belief_persistence/orchestration/scheduler.py:313-348 | Moves exactly one task and logs it; ledgers and notes stay. |
| `Supervisor.Supervisor.BlockAndEscalate` | src/affective_belief_persistence/orchestration/scheduler.py:624-640 | Leaves the task escalated, through blocked unless it was blocked, with error, category and blocker recorded. |
| `Supervisor.Supervisor.Checkpoint` | src/affective_belief_persistence/orchestration/scheduler.py:350-368 | Either the new state is on disk with the next sequence number, or nothing changed. |
| `Supervisor.Supervisor.MarkReady` | src/affective_belief_persistence/orchestration/scheduler.py:405-408 | Marks exactly tasks whose dependencies are done, misses none, and costs no round. |
| `Supervisor.Supervisor.SkipOptional` | src/affective_belief_persistence/orchestration/scheduler.py:410-432 | Cancels only ready optional GPU tasks; reports a change exactly when a task was cancelled, and then rounds were used. |
| `Supervisor.Supervisor.Propagate` | src/affective_belief_persistence/orchestration/scheduler.py:689-706 | One pass in scheduling order escalates only waiting tasks with a failed requirement, leaves none behind, and reports a change exactly when there was one to begin with. |
| `Supervisor.Supervisor.LeaseTask` | src/affective_belief_persistence/orchestration/scheduler.py:434-486 | One task is started under a new lease by a candidate, escalated over budget although a candidate exists, refused for a reason in the live leases, or left alone because no free agent may take it; a directory pattern raises only if a fitting agent is asked about it. |
| `Supervisor.Supervisor.StartTask` | src/affective_belief_persistence/orchestration/scheduler.py:470-478 | A leased task is running under its lease with one more attempt. |
| `Supervisor.Supervisor.FormWave` | src/affective_belief_persistence/orchestration/scheduler.py:767-779 | Tries ready tasks in order while there is room: the lease table is the wave, and every other task tried is without a free agent, over budget, or clashes with a path of the wave. |
| `Supervisor.Supervisor.Materialize` | src/affective_belief_persistence/orchestration/scheduler.py:536-576 | Registers the artifacts in identifier order and touches nothing else. |
| `Supervisor.Supervisor.RegisterHandoffs` | src/affective_belief_persistence/orchestration/scheduler.py:578-603 | New handoffs go to tasks that depend on this one, required or optional, and to no other, with exactly these artifacts; every dependent has one, new unless it already had one of that name. |
| `Supervisor.Supervisor.Complete` | src/affective_belief_persistence/orchestration/scheduler.py:665-677 | A validated task is completed with its sorted outputs, its gate opened, artifacts registered and handed on. |
| `Supervisor.Supervisor.Reject` | src/affective_belief_persistence/orchestration/scheduler.py:605-622 | A rejected task is retried exactly when the failure is retryable and attempts remain, and escalated otherwise. |
| `Supervisor.Supervisor.Settle` | src/affective_belief_persistence/orchestration/scheduler.py:642-687 | A result, after its usage is charged, changes its task and gate as the verdict says and uses up a round. |
| `Supervisor.Supervisor.ApplyResult` | src/affective_belief_persistence/orchestration/scheduler.py:642-687 | Exactly the first task and its gate change, as the charged verdict says; its lease is given back, or had expired. |
| `Supervisor.Supervisor.ApplyAll` | src/affective_belief_persistence/orchestration/scheduler.py:789-791 | The tasks are those left by applying the results one after the other in order of task identifier, at times that never go back, whatever order workers finished in; the measure drops by at least the size of the wave; only an expired lease stops it. |
| `Supervisor.Supervisor.RunWave` | src/affective_belief_persistence/orchestration/scheduler.py:785-794 | A finished wave ends between waves, on disk, with fewer rounds left; an aborted one leaves a loadable checkpoint, and was aborted by a refused checkpoint, an interruption or a lost lease that did occur. |
| `Supervisor.Supervisor.Round` | src/affective_belief_persistence/orchestration/scheduler.py:765-794 | Every pass that does not stop uses up a round, and what has ended never changes. It gives up if and only if no task was leased, none was skipped and nothing is left to propagate after leasing; every ready task is then accounted for. |
| `Supervisor.Supervisor.WithoutWave` | src/affective_belief_persistence/orchestration/scheduler.py:780-784 | Without a wave the no-progress error is raised if and only if nothing was skipped and there was nothing to propagate, whatever was escalated over budget; it changes no task. |
| `Supervisor.Supervisor.Run` | src/affective_belief_persistence/orchestration/scheduler.py:756-811 | Terminates for any workers: completed waves plus rounds left on disk never exceed the rounds at the start; what has ended never changes; each outcome is justified by the final state (completed, failed, paused, no progress, an applied task whose lease was lost, a ready task with a bad path), and it ends out of budget or interrupted exactly when a checkpoint was refused or the process stopped; completed means every required ancestor of the final task completed; the checkpoint on disk always loads. |
| `Supervisor.Supervisor.NextLife` | src/affective_belief_persistence/orchestration/scheduler.py:260-272 | A stopped run, resumed from disk, gains no rounds, and what had ended on disk stays as it was. |
| `Supervisor.Supervisor.RunWithCrashes` | src/affective_belief_persistence/orchestration/scheduler.py:756-811 | Over any number of crashes and resumes, all waves together never exceed the sum of all attempt limits, and completed means final task, mandatory tasks and all gates. |
| `DeadEnds.PropagationIff` | src/affective_belief_persistence/orchestration/scheduler.py:689-706 | Propagation escalates a waiting task if and only if required dependencies lead from it, through waiting tasks only, to a failed one. |
| `DeadEnds.DeadEndIff` | src/affective_belief_persistence/orchestration/scheduler.py:689-706 | A waiting task with an escalated optional dependency is left untouched by marking, skipping and leasing, and stays so through propagation if and only if it has no failed requirement. |
| `DeadEnds.DeadEndIsForEver` | src/affective_belief_persistence/orchestration/graph.py:105-122 | In every later state of any run, resumed or not, such a task is not ready, busy, to be retried or completed. |
| `DeadEnds.NothingLeftIff` | src/affective_belief_persistence/orchestration/scheduler.py:780-784 | After a pass that leased nothing, nothing is left to propagate if and only if no task still waiting has a failed requirement or requires a task just escalated over budget. |
| `DeadEnds.DeadEndIsReached` | src/affective_belief_persistence/orchestration/scheduler.py:765-794 | On a plan and a registry that load, the first pass leases the one ready task, it is started once, rejected and escalated, and its optional dependent is still pending. |
| `DeadEnds.NextPassStalls` | src/affective_belief_persistence/orchestration/scheduler.py:765-794 | From any such state the next pass of the supervisor raises the no-progress error and changes no task, whatever the oracles answer. |
| `DeadEnds.DeadEndExample` | src/affective_belief_persistence/orchestration/scheduler.py:689-706 | The supervisor in that state does so, although an agent could take the dependent. |
| `DeadEnds.BudgetStallIsReached` | src/affective_belief_persistence/orchestration/scheduler.py:434-487 | On a plan and a registry that load, a first pass whose budget is declined escalates the only task: everything has ended, nothing is left to propagate, and the workflow is not complete. |
| `DeadEnds.BudgetStallExample` | src/affective_belief_persistence/orchestration/scheduler.py:780-784 | The supervisor in that state raises the no-progress error although everything has ended. |
| `DeadEnds.ExtraAttemptExample` | src/affective_belief_persistence/orchestration/state.py:200-220 | A task whose maximum is one attempt runs, the process stops, resuming makes it ready, and the next pass starts it again: a checkpoint with two attempts meets every invariant. |
| `Holm.HolmAdjust` | src/affective_belief_persistence/evaluation/analysis.py:616-648 | Each error is reported exactly on its input; otherwise one row for every member in identifier order, its adjusted value that of the closed test and rejection exactly when below alpha. |
| `Holm.AdjustAll` | src/affective_belief_persistence/evaluation/analysis.py:633-638 | The running-maximum loop gives every testable member its value. |
| `Holm.RunningMaxIsClosedTest` | src/affective_belief_persistence/evaluation/analysis.py:629-638 | The running maximum is the largest, over all subsets of the family that contain the hypothesis, of min(1, size times smallest p-value), untestable members counting as one; however ties are listed. |
| `Holm.UntestableClosedTest` | src/affective_belief_persistence/evaluation/analysis.py:639-648 | An untestable member's closed-test value is one. |
| `Holm.ClosedTestIsUnique` | src/affective_belief_persistence/evaluation/analysis.py:616-648 | The closed-test value of a hypothesis is unique. |
| `Holm.RejectionIsStepDown` | src/affective_belief_persistence/evaluation/analysis.py:644-644 | Rejection is the step-down rule: every rank up to this one passes its own threshold. |
| `Holm.TieOrderDoesNotMatter` | src/affective_belief_persistence/evaluation/analysis.py:629-632 | Any two orders of tied p-values give every hypothesis the same adjusted value. |
| `Recovery.SummarizeRecovery` | src/affective_belief_persistence/evaluation/analysis.py:651-710 | Refuses exactly a horizon outside 1 to 15; otherwise counts, missing rows by reason, every point of the curve and the restricted mean are as defined. |
| `Recovery.SurvivalIsAtRiskIff` | src/affective_belief_persistence/evaluation/analysis.py:651-710 | Survival before each day is the fraction still at risk, all the way to the horizon, if and only if nobody unrecovered leaves before the horizon. |
| `Recovery.RestrictedMeanIsAverageIff` | src/affective_belief_persistence/evaluation/analysis.py:651-710 | The restricted mean times the number of rows is the total of min(time, horizon) if and only if nobody unrecovered leaves before the horizon. |
| `Recovery.MeanIsAtLeast` | src/affective_belief_persistence/evaluation/analysis.py:651-710 | Otherwise it is larger: the restricted mean is never below the average. |
| `Recovery.LostEarlyExample` | src/affective_belief_persistence/evaluation/analysis.py:651-710 | Two rows, one lost on day one: the restricted mean is two days, the average one and a half. |
| `Recovery.FirstTwoDayRecovery` | src/affective_belief_persistence/evaluation/metrics.py:118-127 | The index is the first day of the first two known days in a row at or under the threshold, and is missing exactly when there is none. |
| `Recovery.RecoveryTime` | src/affective_belief_persistence/evaluation/metrics.py:408-444 | Refuses exactly bad follow-up days, is undefined exactly with too few known days, is the first recovery day, and is censored at fifteen exactly when there is none. |
| `Recovery.RecoveryTimesGiveAverages` | src/affective_belief_persistence/evaluation/metrics.py:408-444 | Recovery times always meet the hypothesis, so their restricted mean is a plain average at every accepted horizon. |
| `Recovery.RecoveryCurve` | src/affective_belief_persistence/evaluation/metrics.py:447-484 | Each of the fourteen points is the share of those at risk that stay unrecovered that day, or missing when none is at risk. |
| `Recovery.CurveProductIsSurvival` | src/affective_belief_persistence/evaluation/metrics.py:447-484 | The product of the defined points up to a day equals the summary's survival on that day. |
| `PilotBudget.LivePilotBudgetAccount.ReserveCall` | src/affective_belief_persistence/gate3/budget.py:51-88 | Result and new counters agree with the specification; a refusal changes nothing. |
| `PilotBudget.LivePilotBudgetAccount.SettleCall` | src/affective_belief_persistence/gate3/budget.py:90-116 | Result and new counters agree with the specification; a refusal changes nothing. |
| `PilotBudget.LivePilotBudgetAccount.AssertSettled` | src/affective_belief_persistence/gate3/budget.py:118-121 | Fails exactly when time is up or a reservation is open. |
| `PilotBudget.EveryHistoryBalances` | src/affective_belief_persistence/gate3/budget.py:51-116 | After any calls, counters equal settled actual usage plus open reservations, calls equal reservations ever granted, open and settled identifiers partition them, and no limit is exceeded. |
| `PilotBudget.SettledAtMostOnce` | src/affective_belief_persistence/gate3/budget.py:90-116 | A settled reservation is refused a second time and nothing changes. |
| `PilotBudget.NothingOpenMeansActual` | src/affective_belief_persistence/gate3/budget.py:118-121 | With nothing open, the counters are the actual usage of every granted call. |
| `EvaluationRunner.HardBudgetAccount.StartTrajectory` | src/affective_belief_persistence/evaluation/runner.py:229-233 | Each refusal happens exactly when its limit is used up; a permission counts one trajectory. |
| `EvaluationRunner.HardBudgetAccount.RecordModelCall` | src/affective_belief_persistence/evaluation/runner.py:235-243 | Allowed exactly for a live account with time and calls left; an offline account always refuses. |
| `EvaluationRunner.OfflineEvaluationRunner.PriorById` | src/affective_belief_persistence/evaluation/runner.py:297-313 | Accepts prior results exactly when they are distinct and all usable, and indexes them. |
| `EvaluationRunner.OfflineEvaluationRunner.Execute` | src/affective_belief_persistence/evaluation/runner.py:352-397 | Runs a prefix of the schedule; each result is the executor's and is recorded once. It is exhausted if and only if the clock has reached the limit or the last trajectory was cut short, and stops early otherwise only for a live call. |
| `EvaluationRunner.OfflineEvaluationRunner.Run` | src/affective_belief_persistence/evaluation/runner.py:329-420 | Each refusal happens exactly on its input. Done and pending interleave to the assignment list in order; prior results are kept; only new assigned runs are executed, each once; a slice that is not exhausted is executed whole, and only time exhausts it; the results can be resumed from. |
| `EvaluationRunner.DoneAndPendingInterleave` | src/affective_belief_persistence/evaluation/runner.py:399-405 | Results in assignment order and pending identifiers partition the assignment list. |
| `EvaluationRunner.RoomForAll` | src/affective_belief_persistence/evaluation/runner.py:315-351 | Recorded and scheduled runs never outnumber the assignments. |
| `EvaluationRunner.ChainExecutesOnce` | src/affective_belief_persistence/evaluation/runner.py:329-420 | Over any chain of resumes no run is executed twice, none that was already done is executed, and the final results are the first ones plus all executed. |
| `EvaluationRunner.RunLeavesItsSlice` | src/affective_belief_persistence/evaluation/runner.py:329-420 | An undisturbed slice leaves the statuses and raw pointers the deterministic executor gives. |
| `EvaluationRunner.AnySlicingAgrees` | src/affective_belief_persistence/evaluation/runner.py:315-420 | Slices of any sizes leave what one slice of their total size leaves. |
| `EvaluationRunner.OfflineEvaluationRunner.RunInSlices` | src/affective_belief_persistence/evaluation/runner.py:329-420 | A chain of runs, each resumed from the results of the one before, records exactly those slices; only time, a trajectory cut short or a live call can keep it from finishing. |
| `EvaluationRunner.OfflineEvaluationRunner.SlicesAgreeWithOneRun` | src/affective_belief_persistence/evaluation/runner.py:329-420 | A chain of resumed runs that reaches the end leaves the same runs, statuses and raw pointers, in the same order, as one uninterrupted run. |
| `World.AdvanceKeepsSimValid` | src/affective_belief_persistence/simulation/state.py:155-179 | A valid record chained to the last keeps the state valid: contiguous days, one chain, accumulated progress. |
| `Episodes.EpisodeStore.Append` | src/affective_belief_persistence/memory/store.py:103-119 | New episodes are appended, equal ones accepted silently, conflicting or already retrieved ones refused. |
| `Episodes.EpisodeStore.RecordRetrieval` | src/affective_belief_persistence/memory/store.py:141-162 | Each known identifier is recorded once for that retrieval; an unknown one stops there. |
| `Episodes.EpisodeStore.Reframe` | src/affective_belief_persistence/memory/store.py:164-204 | Appends one reframing of the current interpretation, on the same facts and one revision up, or refuses and changes nothing. |
| `Episodes.EpisodeStore.Restore` | src/affective_belief_persistence/memory/store.py:214-235 | Replaying through the live checks succeeds exactly when the specification does, with the same store. |
| `Episodes.ReframeKeepsStoreOk` | src/affective_belief_persistence/memory/store.py:164-204 | Reframing never changes raw episodes or accesses, and each reframing is new. |
| `Episodes.NthRevision` | src/affective_belief_persistence/memory/store.py:164-204 | After n reframings of an episode its current interpretation has the stored revision plus n. |
| `Episodes.NoReadingNoReframe` | src/affective_belief_persistence/memory/store.py:127-136 | An episode stored without an interpretation never gets one. |
| `Episodes.ReframeIsNeverRepeated` | src/affective_belief_persistence/memory/store.py:164-204 | The branch for an already recorded reframing is never taken in a reachable store. |
| `Episodes.StoreRoundTrip` | src/affective_belief_persistence/memory/store.py:206-235 | Restoring the checkpoint of a reachable store succeeds and gives the same store. |
| `Episodes.EveryHistoryRestores` | src/affective_belief_persistence/memory/store.py:78-235 | After any calls the store restores to itself, and raw episodes have only been extended. |
| `Beliefs.BeliefLedger.Append` | src/affective_belief_persistence/memory/beliefs.py:58-82 | Result and versions agree with the append specification. |
| `Beliefs.BeliefLedger.Restore` | src/affective_belief_persistence/memory/beliefs.py:88-92 | Replaying succeeds exactly when the specification does, with the same versions. |
| `Beliefs.AddKeepsLedger` | src/affective_belief_persistence/memory/beliefs.py:58-82 | Appending keeps every version replayable in its place and only extends the list. |
| `Beliefs.MoreEpisodesKeepLedger` | src/affective_belief_persistence/memory/beliefs.py:58-82 | Later episodes never invalidate recorded beliefs. |
| `Beliefs.BeliefsRoundTrip` | src/affective_belief_persistence/memory/beliefs.py:84-92 | Restoring the versions of a reachable ledger succeeds and drops none. |
| `Beliefs.UpdateKeepsEvidence` | src/affective_belief_persistence/memory/update.py:30-61 | An evidence update keeps all earlier evidence and adds the new. |
| `Beliefs.UpdateIsValid` | src/affective_belief_persistence/memory/update.py:30-61 | An updated belief passes the belief validator, although the update is an unvalidated copy. |
| `Retrieval.RetrievalEngine.Rank` | src/affective_belief_persistence/memory/retrieval.py:78-136 | The record is the ranking specification's over all current episodes; refused for a top k below one or a record its validator refuses. |
| `Retrieval.RetrievalEngine.Commit` | src/affective_belief_persistence/memory/retrieval.py:138-156 | Result, store and log agree with the commit specification; an equal record is committed once, a different one under its identifier refused. |
| `Retrieval.SortThenFilterIsFilterThenSort` | src/affective_belief_persistence/memory/retrieval.py:78-136 | Sorting all candidates and then filtering gives the same list as filtering and then sorting. |
| `Retrieval.RankMeetsSpecification` | src/affective_belief_persistence/memory/contracts.py:188-208 | The ranked record always passes the independent top-k validator: selected are the first k of the eligible in score order. |
| `Retrieval.NoneBeatsSelected` | src/affective_belief_persistence/memory/retrieval.py:78-136 | No eligible memory passed over ranks before a selected one. |
| `Retrieval.ExcludedDoNotMatter` | src/affective_belief_persistence/memory/scoring.py:94-101 | Deleting excluded memories, or changing them while they stay excluded, changes no selection. |
| `MemoryRuntime.MemoryRuntime.ContextForAction` | src/affective_belief_persistence/memory/integration.py:213-255 | The context is the specification's and nothing durable changes. |
| `MemoryRuntime.MemoryRuntime.StageAfterConsequence` | src/affective_belief_persistence/memory/integration.py:257-340 | The drafts are the specification's, one for each candidate in order; nothing durable changes. |
| `MemoryRuntime.MemoryRuntime.CommitAfterStep` | src/affective_belief_persistence/memory/integration.py:342-388 | Retrieval log, then episodes, then belief, with the exact partial state left by a failure. |
| `MemoryRuntime.MemoryRuntime.Restore` | src/affective_belief_persistence/memory/integration.py:402-415 | Succeeds exactly when the replay does, with fresh parts and the replayed state. |
| `MemoryRuntime.MemRoundTrip` | src/affective_belief_persistence/memory/integration.py:390-415 | The checkpoint of any reachable memory is accepted and restores to an equal store, belief ledger and retrieval log. |
| `MemoryRuntime.CommitKeepsMemOk` | src/affective_belief_persistence/memory/integration.py:342-388 | A commit, successful or not, leaves a reachable memory restorable and only extends raw episodes. |
| `MemoryRuntime.ContextNeverRefused` | src/affective_belief_persistence/memory/integration.py:213-255 | On a reachable memory a valid query is always answered with a valid retrieval record. |
| `MemoryRuntime.MemoryRuntime.SetBlockedIds` | src/affective_belief_persistence/memory/integration.py:205-208 | Replaces the filter by the sorted distinct identifiers and changes nothing else. |
| `MemoryRuntime.MemoryRuntime.SetBlockedTags` | src/affective_belief_persistence/memory/integration.py:210-211 | Replaces the filter by the sorted distinct tags and changes nothing else. |
| `MemoryRuntime.NothingStoredIff` | src/affective_belief_persistence/memory/integration.py:342-388 | Storing the drafts changes nothing if and only if every draft before the first refused one is stored already. |
| `MemoryRuntime.FailedCommitUnchangedIff` | src/affective_belief_persistence/memory/integration.py:342-388 | A failed commit leaves the memory as it was if and only if the retrieval was made under another configuration, or its identifier was already logged and every draft before the first refused one is stored already. |
| `MemoryRuntime.HalfWrittenExample` | src/affective_belief_persistence/memory/integration.py:342-388 | On a new memory, an event whose one fact both supports and contradicts the relationship makes the commit fail with the retrieval logged and the episode stored. |
| `Interventions.InterventionRuntime.ObserveRealityShock` | src/affective_belief_persistence/interventions/runtime.py:249-254 | Accepts exactly a valid held-out shock that agrees with one seen before, and remembers it. |
| `Interventions.InterventionRuntime.ApplyActivation` | src/affective_belief_persistence/interventions/runtime.py:272-376 | Record, memory and instructions after activation agree with the specification, or activation raises when it does. |
| `Interventions.InterventionRuntime.ReframeTargets` | src/affective_belief_persistence/interventions/runtime.py:325-347 | Reframes the targets in order exactly as the specification does, or fails when it does. |
| `Interventions.InterventionRuntime.StageOnClone` | src/affective_belief_persistence/interventions/runtime.py:481-521 | Staging changes a restored clone only: live memory, instructions and records are as before. |
| `Interventions.InterventionRuntime.ContextForAction` | src/affective_belief_persistence/interventions/runtime.py:481-521 | Shock, staged treatment and context are those of the prepared day; on failure nothing stays staged. |
| `Interventions.InterventionRuntime.PreActionOverlay` | src/affective_belief_persistence/interventions/runtime.py:395-430 | The overlay shows instructions, filters and record of the staged treatment, or of the live runtime when none is staged. |
| `Interventions.InterventionRuntime.CommitAfterStep` | src/affective_belief_persistence/interventions/runtime.py:565-585 | The day's memory and the staged treatment become live together. When the commit fails on day 30, nothing has changed but that the treatment is dropped; on any other day the live memory keeps exactly what was written before the failure. |
| `Interventions.InterventionRuntime.Snapshot` | src/affective_belief_persistence/interventions/runtime.py:595-607 | Drops anything staged, changes nothing else, and captures exactly the state. |
| `Interventions.InterventionRuntime.Restore` | src/affective_belief_persistence/interventions/runtime.py:610-628 | Succeeds exactly when the checkpoint specification does, with fresh objects in the same state. |
| `Interventions.PartnerTargetsExact` | src/affective_belief_persistence/interventions/runtime.py:256-263 | Targets are exactly the stored partner memories formed through the declared day, sorted, without repeats. |
| `Interventions.ReframeAllEffect` | src/affective_belief_persistence/interventions/runtime.py:325-347 | Reframing distinct targets always succeeds; each gets one revision on the same facts, no other memory and no raw episode changes. |
| `Interventions.TreatmentApplies` | src/affective_belief_persistence/interventions/runtime.py:272-376 | A valid treatment always applies and writes its own layer only; one that records a no-op changes nothing. |
| `Interventions.ActivationIsIsolated` | src/affective_belief_persistence/interventions/contracts.py:160-206 | With the shock validated, the first activation succeeds and its record passes the isolation validator. |
| `Interventions.StagingIsSafe` | src/affective_belief_persistence/interventions/runtime.py:481-521 | On a reachable runtime staging always succeeds, on day 30 only, with one isolated record of this treatment. |
| `Interventions.CommitKeepsIOk` | src/affective_belief_persistence/interventions/runtime.py:565-585 | A committed day keeps the runtime sound: shock validated after day 26, no record through day 29, exactly one afterwards. |
| `Interventions.InitialIOk` | src/affective_belief_persistence/interventions/runtime.py:231-247 | A new runtime is sound. |
| `Interventions.RuntimeRoundTrip` | src/affective_belief_persistence/interventions/runtime.py:595-628 | The checkpoint of a reachable runtime is always accepted and restores to the same runtime. |
| `Interventions.LookupSucceeds` | src/affective_belief_persistence/interventions/runtime.py:395-430 | Active instructions always resolve to directives. |
| `Harness.StartIsOk` | src/affective_belief_persistence/harness/runner.py:160-231 | A new cell meets the whole-cell invariant. |
| `Harness.StepKeepsCellOk` | src/affective_belief_persistence/harness/runner.py:79-100 | A completed day keeps the invariant over all four ledgers and advances by one day. |
| `Harness.RunKeepsCellOk` | src/affective_belief_persistence/harness/runner.py:102-107 | So does any run, which ends on the day asked for. |
| `Harness.OneIsolatedRecord` | src/affective_belief_persistence/interventions/contracts.py:160-206 | After any run from the start there is no intervention record before day 30, and from then on exactly one, of this cell's treatment, first in its chain and isolated. |
| `Harness.EvidenceNeverRefused` | src/affective_belief_persistence/harness/runner.py:234-318 | With a daily budget of ten, no evidence check refuses a day the simulation completed on a reachable cell. |
| `Harness.CompositeRoundTrip` | src/affective_belief_persistence/harness/runner.py:321-436 | Every checkpoint of a reachable cell is captured, accepted, and restores to the same four ledgers. |
| `Harness.RunInTwoParts` | src/affective_belief_persistence/harness/runner.py:102-107 | A run is the same as a run to an earlier day continued. |
| `Harness.ResumeEqualsUninterrupted` | src/affective_belief_persistence/harness/runner.py:456-479 | For every scenario and pause day, pausing, capturing, restoring and finishing equals the uninterrupted run, records, evidence, memory and ledger alike. |
| `NonInterference.StepAlike` | src/affective_belief_persistence/harness/runner.py:489-524 | One day of two cells that differ only in specification and record contents: both refuse it or both do the same. |
| `NonInterference.ArmsAgreeBeforeDay30` | src/affective_belief_persistence/harness/runner.py:489-524 | Runs of arms that differ in treatment only, stopped on any day before 30, agree on all eight compared fields and on the simulation; both exist or neither. |
| `NonInterference.FinishedArmsAgreeBeforeDay30` | src/affective_belief_persistence/harness/runner.py:489-524 | In finished runs of such arms, the first 29 pieces of evidence agree on the eight fields, so the comparison never fails. |
| `NonInterference.NoOpArmIsNoTreatmentArm` | src/affective_belief_persistence/interventions/runtime.py:448-479 | From alike cells, an arm whose treatment recorded a no-op runs as the no-treatment arm does. |
| `NonInterference.NoOpArmFromStart` | src/affective_belief_persistence/interventions/runtime.py:448-479 | From the start and for every length of run, such an arm has the same simulation records, model inputs and other compared fields. |
| `Execution.HarnessMemoryBridge.ContextForAction` | src/affective_belief_persistence/harness/model.py:80-91 | Captures exactly the event, context and overlay of the prepared day. |
| `Execution.HarnessMemoryBridge.ReplaceRuntime` | src/affective_belief_persistence/harness/model.py:119-123 | Forgets all captured context with the old runtime. |
| `Execution.Gate2DeterministicModel.RichInput` | src/affective_belief_persistence/harness/model.py:268-332 | For the planned request the input is the planned one; an input is never built for memories the store does not know. |
| `Execution.Gate2DeterministicModel.SelectAction` | src/affective_belief_persistence/harness/model.py:334-388 | The choice, the ledger entry and the pending trace are those of the planned request. |
| `Execution.Gate2DeterministicModel.GeneratePublicLanguage` | src/affective_belief_persistence/harness/model.py:390-441 | Answers only for a pending decision of that request, and appends its complete trace. |
| `Execution.Gate2DeterministicModel.RestoreState` | src/affective_belief_persistence/harness/model.py:241-246 | Goes back to an earlier ledger and trace count with nothing pending. |
| `Execution.Gate2DeterministicModel.TraceForRequest` | src/affective_belief_persistence/harness/model.py:248-252 | Finds a trace if and only if exactly one entry of the list is of the request, and then it is that entry. |
| `Execution.NewTraceIsOnly` | src/affective_belief_persistence/harness/model.py:248-252 | A new request's trace is the only one, also after a restore has lost all earlier traces. |
| `Execution.SimulationEngine.Plan` | src/affective_belief_persistence/simulation/engine.py:185-248 | Event, request and context are those of the day's plan, and only the shock field and the clone have moved; a day without a plan gives a request only if it names memories the store does not know, which the model then refuses. |
| `Execution.SimulationEngine.Choose` | src/affective_belief_persistence/simulation/engine.py:261-277 | There is a choice if and only if the day's plan has one, of a known action, with its cost covered and its consequence applied; it is the plan's, and its ledger entry and pending trace are written, but nothing has been said in public. |
| `Execution.SimulationEngine.Act` | src/affective_belief_persistence/simulation/engine.py:249-357 | The model speaks only after the action was chosen, committed and debited and its consequence applied; the record, the staged commit, the ledger and the trace are those of the specified day. |
| `Execution.SimulationEngine.Commit` | src/affective_belief_persistence/simulation/engine.py:358-362 | The state advances if and only if the day's memory was committed. |
| `Execution.SimulationEngine.Step` | src/affective_belief_persistence/simulation/engine.py:182-366 | Succeeds exactly when the specified day does and nothing strikes; then state, runtime, ledger, trace and captured context are exactly the day's. |
| `Cells.CellExecution.EvidenceForStep` | src/affective_belief_persistence/harness/runner.py:234-318 | The evidence is built exactly when every check passes, from the day's one trace. |
| `Cells.CellExecution.Attempt` | src/affective_belief_persistence/harness/runner.py:86-88 | The day without its safety net succeeds exactly when the specified day does and no fault strikes. |
| `Cells.CellExecution.Rollback` | src/affective_belief_persistence/harness/runner.py:90-97 | Puts simulation, runtime, bridge, model, and evidence back to the saved values, in fresh objects. |
| `Cells.CellExecution.Step` | src/affective_belief_persistence/harness/runner.py:79-100 | Wherever the day fails, after any of its seven stages or midway with any values left in any ledger, all four ledgers are unchanged and the cell is still valid; otherwise they are exactly one specified day on. |
| `Cells.CellExecution.StepAfterFailures` | src/affective_belief_persistence/harness/runner.py:79-100 | Any number of failed attempts followed by an undisturbed one equals the first-try day. |
| `Cells.CellExecution.RunThrough` | src/affective_belief_persistence/harness/runner.py:102-107 | Refuses days out of range; agrees with the specified run; a failing day keeps the days before it. |
| `Cells.CellExecution.CaptureCheckpoint` | src/affective_belief_persistence/harness/runner.py:321-346 | Captures exactly the specified bundle and changes no ledger. |
| `Cells.CellExecution.Start` | src/affective_belief_persistence/harness/runner.py:160-231 | A new cell is valid and starts on day one with empty ledgers. |
| `Cells.CellExecution.RestoreCheckpoint` | src/affective_belief_persistence/harness/runner.py:365-436 | Accepts exactly the bundles whose bindings all hold, and wires fresh objects to the bundle's state. |
| `Cells.CellExecution.RunCell` | src/affective_belief_persistence/harness/runner.py:439-453 | Runs the specified forty days, or none when one of them cannot be done. |
| `Cells.CellExecution.RunCellResumed` | src/affective_belief_persistence/harness/runner.py:456-479 | With the objects thrown away and rebuilt at any pause day, the finished cell is the same as the uninterrupted one. |

## Left out

- Files, atomic renames, symbolic links, YAML and JSON parsing, git and environment provenance: a checkpoint is a value.
- Model providers, prompts, transports and caches: the model's choice and its prompts are arbitrary functions of the input.
- Concrete hashing, JSON canonicalisation, Unicode normalisation and regular expressions.
- `orchestration/budgets.py` and `orchestration/validation.py`: a start is affordable or not, a result passes or fails with a
  message, a category and retryability, all arbitrarily.
- Input artifacts handed to a worker, artifact digests and sizes, event payloads and identifiers, and the run summary file.
- Real threads: results of a wave are an arbitrary map from its tasks to verdicts.
- `InterventionRuntime.activate`, the direct activation outside a day; only the staged activation of day 30 is modelled.
- Relevance and the weighted score of a memory: an arbitrary function of configuration, query and memory.
- Checkpoint files written by the simulation engine itself, `run_and_write_simulation`, replay reports and manifests.
- The matrix materialisation of the harness, cell manifests and the audit report.
- Sign-flip randomisation, the bootstrap, percentiles, effect sizes and paired summaries; ratio metrics of single bodies.
- Floating-point rounding: statistics and budgets are over the reals.
- Waves.WaveSharesNoPath: assumes that the later lease was granted before the earlier one expired; without it the code does
  not promise it. Paths are taken to be in normal form, as the repository's own normalisation leaves them.
- Harness.EvidenceNeverRefused: assumes the daily budget of ten that the evidence contract fixes.
- Interventions.InterventionRuntime.ReframeTargets: looks at each target just before reframing it, where the code looks at
  all of them first; targets are distinct and have an interpretation, so the outcome is the same.
