# Run orchestrator: model and proofs

The deployed orchestrator keeps the state of every run in database tables and lets any
number of workers, operators and timers act on it. This project models that state machine,
the hint queue and outbox around it, and the graph algorithms below it, and proves what
holds over every run, in every interleaving.

A run is a `State`: the agents of the spec, the agent rows (status, dependencies, policy,
retry counters, cost, lease), the attempt rows, the run row and the log of `done` events.
Each database transaction is one atomic step. `refresh_run_status` is a transaction of its
own, so other steps may come between it and the call that it ends.

The source changes things in place, and so do the classes and methods of the model:

- `Graph`, `Plan`: dependency chains, cycles and layers; plans and what makes them well named.
- `DependencyGraphs`, `Validation`: Kahn's algorithm, layers, subtrees, and the depth-first
  cycle search with its shared path.
- `RunState`, `Transitions`: the rows, and for each transaction the function from old rows
  to new rows. `Transactions` has the loops of the source, proved equal to those functions.
- `Laws`, `Effects`: what each transaction does, told from the columns of the rows and the
  configuration alone, and what its caller is told.
- `Invariants`, `Outcomes`, `Blame`, `Steps`: what every step keeps.
- `Runs`, `Retries`, `Fencing`, `Overspend`, `CascadeReach`, `Layered`: theorems over whole
  runs.
- `Exceptions`, `ExpiryBreaker`, `Spawning`: where an operation does not keep a property, with the exact
  condition; `Witnesses` has executions in which that happens.
- `Store`, `Calls`, `Repository`: all runs together, and `DeployedRepository` with its calls.
- `Coordination`, `Submission`, `Worker`, `Outbox`: hints, submission, reconciliation, the
  end of a claim, and the outbox protocol under crashes.

An `Execution` is the creation of a validated plan followed by any steps at all: claims by
anybody, renewals, completions and failures with any attempt id, cancellations, resumption,
expiry passes in any row order, roll-ups and spawns. Hints play no part in it, so every
theorem holds whatever the queue loses, repeats or reorders.

Where the code does less than one would expect, the model follows the code:

- An expiry pass rewrites rows it read before an earlier row stopped the run, so a later row
  can be queued again after the stop (`spawnd/state/repository.py:1620-1671`). It stops
  everything iff no row after the last stopping row may retry.
- `cancel_agent` asks for no attempt and leaves dependents pending. The worker calls it when
  it lost its lease, and then it ends the attempt of whoever runs the agent by that time.
- `resume_run` can put work back behind an agent that stays failed or cancelled.
- `complete_agent` and `fail_agent` without an attempt id on a running agent leave a running
  attempt behind.
- `topological_order` and `iter_layers` report an unknown dependency as a circular one;
  `has_circular_deps` ignores unknown names. On plans without unknown names they agree.
- An expiry pass consults neither the breaker nor the budget, and a failure not the budget.
  `fail_agent` consults the breaker before its cascade adds failures. Either can leave a run
  at the threshold with agents alive.
- The cap of a manager counts names, whoever spawned them.
- A claim that is refused still acknowledges its hint; reconciliation is what recovers it.
- A run without agents is never completed by the roll-up.

## Model

| member | source | states |
|---|---|---|
| Graph.LayersExhaustIffAcyclic | spawnd/core/deps.py:123-140 | repeated layering uses up a graph iff it is closed and has no dependency cycle |
| Graph.LayersSuffice | spawnd/core/deps.py:123-140 | a closed acyclic graph is used up after as many layers as agents |
| Graph.LayerIsLongestPath | spawnd/core/deps.py:123-140 | the layer of an agent is the length of its longest dependency path, and the least possible level |
| Graph.LayersDisjoint | spawnd/core/deps.py:126-127 | no agent is in two layers |
| Graph.DoneBeforeIsLayers | spawnd/core/deps.py:123-140 | what is done before layer k is exactly the earlier layers, and it contains all its dependencies |
| DependencyGraphs.DependencyGraph.constructor | spawnd/core/deps.py:10-17 | the dependency dictionary of the agents, later entries replacing earlier ones |
| DependencyGraphs.DependencyGraph.TopologicalOrder | spawnd/core/deps.py:53-75 | returns iff closed and acyclic, and then every agent exactly once with dependencies first |
| DependencyGraphs.DependencyGraph.Dequeue | spawnd/core/deps.py:66-72 | each dependent loses one in-degree, and exactly those that reach zero join the queue once |
| DependencyGraphs.KahnStep | spawnd/core/deps.py:63-72 | in-degrees equal the dependencies not yet dequeued, and the queue plus the order are the zeros, after every round |
| DependencyGraphs.DependencyGraph.GetDependents | spawnd/core/deps.py:87-100 | exactly the agents that name it as dependency |
| DependencyGraphs.DependencyGraph.GetSubtree | spawnd/core/deps.py:102-121 | exactly the agents reachable through dependency chains, cyclic graphs included |
| DependencyGraphs.DependencyGraph.IterLayers | spawnd/core/deps.py:123-140 | yields the layers in order, none empty; raises iff the graph is cyclic or not closed |
| DependencyGraphs.DependencyGraph.Validate | spawnd/core/deps.py:142-158 | lists the unknown dependencies of every agent exactly, and reports a cycle iff ordering fails |
| Validation.CycleSearch.Visit | spawnd/io/validation.py:9-17 | a hit proves a cycle; a miss restores the shared path and bounds every walk below the agent |
| Validation.HasCircularDeps | spawnd/io/validation.py:5-21 | true iff there is a dependency cycle, unknown names or not |
| Validation.ValidatePlan | spawnd/io/validation.py:31-41 | no error iff names are distinct, dependencies known and acyclic; each error reported iff it applies |
| Transactions.InsertAgents | spawnd/state/repository.py:93-120 | one row per agent in plan order, refused iff a name repeats |
| Transactions.MarkNewlyReady | spawnd/state/repository.py:499-515 | exactly the pending agents whose dependencies completed become queued and are returned |
| Transactions.ClaimableReady | spawnd/state/repository.py:468-497 | the oldest queued agents, as many as the limit leaves room for |
| Transactions.FailDependencyBlocked | spawnd/state/repository.py:716-744 | the rounds end on any graph and fail exactly the least fixpoint of blocked waiting agents |
| Transactions.StopRunAfterFailure | spawnd/state/repository.py:746-786 | all other live agents and their running attempts are cancelled, and the run is failed |
| Transactions.PausePendingWork | spawnd/state/repository.py:788-800 | exactly the pending and queued agents pause; the run pauses iff there was one |
| Transactions.CancelNonTerminalWork | spawnd/state/repository.py:802-832 | every live agent and its running attempts are cancelled |
| Transactions.EnforceRunBudget | spawnd/state/repository.py:834-864 | acts iff a positive budget is exceeded, by warning, cancelling or pausing |
| Transactions.EnforceCircuitBreaker | spawnd/state/repository.py:866-905 | acts iff the failures reach a positive threshold, by its action |
| Transactions.ClaimOnce | spawnd/state/repository.py:534-609 | succeeds iff queued and within the limit; opens one attempt with the next number and the same lease |
| Transactions.NextAttemptNumber | spawnd/state/repository.py:540-549 | one more than the highest number of the agent's attempts |
| Transactions.CompleteOnce | spawnd/state/repository.py:652-697 | takes effect iff the attempt named runs the agent; dependents are released, then the budget is enforced |
| Transactions.FailOnce | spawnd/state/repository.py:922-1000 | retry, or final status and then breaker, stop or cascade, in that order; the agents to announce |
| Transactions.SettleFailure | spawnd/state/repository.py:991-1000 | which of breaker, stop policy and cascade handles a final failure |
| Transactions.CancelRunOnce | spawnd/state/repository.py:1004-1047 | a live run and all its live agents are cancelled, and their number returned |
| Transactions.NextStatus | spawnd/state/repository.py:1058-1073 | the run status that the set of agent statuses decides |
| Transactions.ResumeRows | spawnd/state/repository.py:1094-1123 | exactly the paused and the retryable failed agents resume, as queued or pending by their dependencies |
| Transactions.ExpireOneRow | spawnd/state/repository.py:1630-1675 | one stale row, written from what was read at the start and without a status guard |
| Laws.RollUpLaw | spawnd/state/repository.py:1058-1086 | each status is written exactly when the agents meet its condition, and the total is their cost |
| Laws.RollUpLeaves | spawnd/state/repository.py:1056-1061 | a cancelled or cost-exceeded run and the status of an empty run are left alone |
| Laws.RenewLaw | spawnd/state/repository.py:611-645 | the new expiry is written to the agent and to the attempt that runs it, and nothing else; without the lease nothing changes |
| Laws.StaleLaw | spawnd/state/repository.py:1620-1628 | a lease is stale exactly once its expiry has passed |
| Laws.RenewedSurvivesIff | spawnd/state/repository.py:611-645 | a renewed agent is untouched by every expiry pass up to the new expiry iff no stale agent stops the run |
| Laws.MayClaimIff | spawnd/state/repository.py:468-497 | a row may be claimed iff it is queued and there is no limit, or the queued rows before it and the running agents are fewer than the limit |
| Laws.ReadyAnswer | spawnd/state/repository.py:468-484 | the answer lists exactly the agents that may be claimed, in row order |
| Laws.ResumeLaw | spawnd/state/repository.py:1094-1123 | paused agents come back for free and failures with a retry left for one retry, queued or pending by their dependencies; nobody stays paused and no other row changes |
| Laws.ResumeAnswer | spawnd/state/repository.py:1097-1120 | the agents listed are those |
| Effects.CompleteLaw | spawnd/state/repository.py:647-699 | the agent, its attempt and event; and by the total reached a cancelled run, a paused run or released dependents |
| Effects.CompleteAnswer | spawnd/state/repository.py:694-699 | the caller is told exactly whom the new state lets start |
| Effects.RetryLaw | spawnd/state/repository.py:945-985 | a failure with a retry left queues the agent, uses one retry and ends the attempt, and that is all |
| Effects.FinalLaw | spawnd/state/repository.py:920-1000 | a final failure keeps the status asked for; then the breaker, the stop policy or the cascade changes exactly the others it should |
| Effects.FailAnswer | spawnd/state/repository.py:986-1002 | the caller is told to announce the agent iff it is queued again, and nobody else |
| Effects.FencedLaw | spawnd/state/repository.py:701-714 | an attempt that does not run the agent is refused without any change |
| Effects.UnfencedCompleteLaw | spawnd/state/repository.py:654-693 | without attempt id every agent that is not over is completed |
| Effects.UnfencedFailLaw | spawnd/state/repository.py:922-963 | without attempt id every agent that is not over fails or is retried |
| Effects.LapseLaw | spawnd/state/repository.py:1629-1675 | one stale row: retry, stop or cascade, each with exactly the rows and attempts it changes |
| Effects.CancelRunLaw | spawnd/state/repository.py:1004-1047 | a live run becomes cancelled with all live agents and running attempts |
| Effects.CancelAgentLaw | spawnd/state/repository.py:424-460 | a live agent becomes cancelled with the attempt that runs it |
| Effects.ClaimLaw | spawnd/state/repository.py:540-597 | agent and attempt carry the same fresh lease, and the attempt the next number |
| Effects.SpawnLaw | spawnd/state/repository.py:171-213 | one queued row without dependencies and one entry in the spec |
| Effects.ReleaseLaw | spawnd/state/repository.py:499-515 | exactly the pending agents with all dependencies completed are queued and listed in row order |
| Effects.CreateLaw | spawnd/state/repository.py:80-120 | one fresh row for each agent, and the settings of the plan, with 25 dollars and a pause where it has no budget |
| Outcomes.ClaimKeepsCore | spawnd/state/repository.py:524-609 | ownership, dependency safety, retry bound and limit survive a claim |
| Outcomes.CompleteKeepsCore | spawnd/state/repository.py:647-699 | the same for a fenced completion with release and budget |
| Outcomes.FailKeeps | spawnd/state/repository.py:907-1002 | the same for a fenced failure with every way of handling it |
| Outcomes.ExpirePassKeeps | spawnd/state/repository.py:1610-1681 | the same for an expiry pass over any number of rows in any order |
| Outcomes.SpawnKeepsCore | spawnd/state/repository.py:123-221 | the same for a spawned worker |
| Outcomes.ResumeKeeps | spawnd/state/repository.py:1089-1126 | the same for resumption |
| Outcomes.LatestRunningIsTheLease | spawnd/state/repository.py:1640-1661 | the attempt that expiry picks is the one that holds the lease |
| Blame.HandleFailureClearsBlame | spawnd/state/repository.py:716-805 | after breaker, stop or cascade nobody waits behind the failure |
| Blame.DoomedIsClosed | spawnd/state/repository.py:716-744 | after the cascade no waiting agent depends on a failed one |
| Steps.StepKeepsCore | spawnd/state/repository.py:424-1126 | every step keeps all the core invariants |
| Steps.StepKeepsNoneOverdue | spawnd/state/repository.py:499-522 | after every step no pending agent has all dependencies completed |
| Steps.StepKeepsNoneBlamed | spawnd/state/repository.py:716-1002 | every step but resumption keeps work from waiting behind a failure |
| Steps.StepKeepsNoneStranded | spawnd/state/repository.py:746-832 | every step but resumption and agent cancellation keeps pending work from waiting behind a cancelled agent |
| Steps.StepKeepsGraph | spawnd/state/repository.py:142-213 | no step changes the graph, except that spawning adds an isolated agent; it stays acyclic |
| Steps.StepKeepsClosedRun | spawnd/state/repository.py:1049-1087 | without spawning, a cancelled or cost-exceeded run has terminal agents only |
| Runs.Reached | spawnd/state/repository.py:76-1126 | every state of every execution satisfies the invariants |
| Runs.SingleOwner | spawnd/state/repository.py:524-645 | an agent runs iff exactly one attempt of it runs, with the same worker, token and expiry; otherwise it has no lease |
| Runs.DependencyRows | spawnd/state/repository.py:93-120 | in every reached state every dependency of a row is a row |
| Runs.DependenciesCompleted | spawnd/state/repository.py:499-515 | a queued, running or completed agent has all its transitive dependencies completed |
| Runs.DoneIsLinearExtension | spawnd/state/repository.py:688-693 | the done events are distinct and in dependency order |
| Runs.CompletedForever | spawnd/state/repository.py:1096-1102 | a completed agent stays completed, and the done log only grows |
| Runs.ClaimsBounded | spawnd/state/repository.py:540-549 | an agent is claimed at most max(retry_count, 0) + 1 times, with attempt numbers 1, 2, ... |
| Retries.ClaimsPayForRetries | spawnd/state/repository.py:945-964 | without resume, the claims of a pending, queued or paused agent equal its retries used, and a running one has one more |
| Retries.RetriedIff | spawnd/state/repository.py:945-964 | without resume, a fenced failure that may be retried queues the agent iff its policy is retry and it was claimed at most retry_count times; otherwise it ends with the status asked for |
| Runs.FinitelyManyChanges | spawnd/state/repository.py:945-964 | without resume and spawn the status-changing steps are bounded by the fuel of the created run |
| Runs.LimitHolds | spawnd/state/repository.py:468-497 | the running agents never exceed the limit |
| Runs.ConfigFixed | spawnd/state/repository.py:82-92 | limit, budget and breaker of a run never change |
| Runs.NoWorkBehindFailure | spawnd/state/repository.py:716-805 | without resume, no pending or queued agent has a failed dependency |
| Runs.DeadlockFree | spawnd/state/repository.py:468-515 | without resume and agent cancellation, a live run has a queued, running or paused agent, and a claimable one when none runs or is paused |
| Runs.StuckOnlyBehindDead | spawnd/state/repository.py:468-515 | in every execution, resumption and agent cancellation included: with nobody queued, running or paused, every live agent is pending behind a failed or cancelled one |
| Calls.ResumedRunMoves | spawnd/state/repository.py:1089-1126 | a live reached run without failed or cancelled agents in which nobody runs has a claimable agent once it is resumed |
| Runs.TerminalStays | spawnd/state/repository.py:1096-1118 | only resumption changes the status of a terminal agent |
| Runs.ClosedMeansTerminal | spawnd/state/repository.py:1049-1087 | without spawning, a cancelled or cost-exceeded run has no live agent, over whole executions |
| Runs.EmptyRunNeverCompletes | spawnd/state/repository.py:1058-1061 | a run without agents stays queued until it is cancelled; the roll-up never completes it |
| Runs.ClaimedAgentInSpec | spawnd/workers/worker.py:139-149 | a running agent is found in the spec, with the dependencies of its row, all completed |
| Runs.PolicyFollowsSpec | spawnd/state/repository.py:93-120 | in every reached state the policy, retries and cap of every row are those of its spec entry |
| Fencing.AttemptsAge | spawnd/state/repository.py:647-714 | an attempt that left running keeps its row for good |
| Fencing.Fenced | spawnd/state/repository.py:611-714 | with the id or token of an attempt that is over, complete, fail and renew change nothing |
| Fencing.RenewalsMeanOwnership | spawnd/workers/worker.py:785-807 | between any two moments at which a renewal of the worker succeeds, it ran the agent all the time and nobody else did |
| Fencing.OneCompletedAttempt | spawnd/state/repository.py:681-687 | at most one attempt of an agent completes, and only when the agent completed |
| Fencing.SettledRunStays | spawnd/state/repository.py:424-1087 | when all agents are terminal, only resume and spawn change an agent status or an attempt |
| Fencing.SnapshotClaimsFit | spawnd/state/repository.py:536-569 | the agents that pass the check on one snapshot fit under the limit, in any commit order |
| Fencing.CommitIsClaim | spawnd/state/repository.py:550-597 | where the check still passes, the write on a snapshot is the whole claim |
| CascadeReach.DoomedIffChained | spawnd/state/repository.py:716-744 | the cascade fails exactly the agents at the end of a chain of waiting dependents |
| CascadeReach.CascadeIsSubtree | spawnd/core/deps.py:102-121 | when all transitive dependents wait, the root and the cascade are its subtree |
| CascadeReach.FinalFailureReaches | spawnd/state/repository.py:990-1000 | after a final failure exactly the chained dependents fail, and the others keep their status or are released |
| Overspend.CancelOvershoot | spawnd/state/repository.py:834-861 | with budget B, cancel and completions of at most c, the total never passes B + c |
| Overspend.PauseOvershoot | spawnd/state/repository.py:834-864 | with pause and room for L agents, the total never passes B + L * c |
| Overspend.PlanBudgetHolds | spawnd/state/repository.py:834-864 | the same in terms of the budget and limit of the plan |
| Overspend.DefaultBudgetHolds | spawnd/state/repository.py:82-92 | a plan without budget never passes 25 dollars by more than one completion for each agent that may run |
| Layered.SchedulerRefinesLayers | spawnd/state/repository.py:647-699 | claiming and completing all queued agents round by round, with or without roll-ups in between, queues exactly the layers, if the limit admits the widest layer and the budget the plan |
| Layered.LayersCompleteTheRun | spawnd/state/repository.py:1049-1087 | when the layers are used up every agent is completed, and the roll-up completes the run |
| Layered.RoundsSuffice | spawnd/state/repository.py:1049-1087 | as many rounds as agents complete every agent and, rolled up, the run |
| Exceptions.UnfencedCompleteOwnedIff | spawnd/state/repository.py:654-687 | a completion without attempt id keeps single ownership iff the agent was not running |
| Exceptions.UnfencedFailOwnedIff | spawnd/state/repository.py:922-985 | the same for a failure without attempt id, retried or not |
| Exceptions.ResumeBlamesNobodyIff | spawnd/state/repository.py:1097-1107 | from a run without work behind failures, resumption puts none there iff every failed dependency of a resumed agent is resumed too |
| Exceptions.ResumeStrandsNobodyIff | spawnd/state/repository.py:1097-1107 | from a run without stranded work, resumption strands nobody iff no resumed agent depends on a cancelled one |
| Exceptions.CancelAgentStrandsNobodyIff | spawnd/state/repository.py:424-460 | cancelling an agent strands no pending work iff the agent is over already or nothing pending depends on it |
| Exceptions.BlockedForever | spawnd/state/repository.py:1096-1102 | in every execution, an agent behind a cancelled one is never queued, running or completed again, resumption included |
| Exceptions.StopInExpiryPassIff | spawnd/state/repository.py:1620-1671 | a stop inside an expiry pass ends every agent iff no later row may retry |
| Exceptions.AfterLastStop | spawnd/state/repository.py:1620-1671 | otherwise exactly those later rows live on, queued |
| Exceptions.StopInAnyOrderIff | spawnd/state/repository.py:1620-1671 | whatever order the query answers in, a stop inside an expiry pass ends every agent iff no stale agent may retry |
| Exceptions.ValidLeaseSurvivesIff | spawnd/state/repository.py:1620-1671 | an expiry pass leaves a running agent with a valid lease alone iff no stale agent stops the run |
| Exceptions.FinalFailureEndsRunIff | spawnd/state/repository.py:990-1000 | with a cancel_all breaker a final failure ends every agent iff the breaker trips on it, the policy is stop, or the cascade reaches all live agents |
| Exceptions.BreakerMissesIff | spawnd/state/repository.py:990-1000 | failures at the threshold with agents alive: exactly when only the cascade reaches the threshold and spares somebody |
| ExpiryBreaker.DoomedSplits | spawnd/state/repository.py:716-744 | failing one more agent dooms what was doomed before and what the state after that adds |
| ExpiryBreaker.PassWithoutStop | spawnd/state/repository.py:1610-1681 | without a stopping row, in any row order, a pass fails exactly the stale agents that may not retry and all waiting agents behind them, and ends nobody else |
| ExpiryBreaker.PassMissesBreakerIff | spawnd/state/repository.py:1663-1675 | such a pass leaves a run at the threshold of cancel_all with agents alive iff failures, lost agents and their cascade reach a positive threshold and spare somebody |
| ExpiryBreaker.StoppedPassMissesBreakerIff | spawnd/state/repository.py:1663-1675 | with stopping rows: only what is lost before the first of them cascades, and somebody is alive iff a row after the last may retry |
| Spawning.LikeMeansDotted | spawnd/state/repository.py:158-167 | the cap counts the names that resemble the manager name, underscores matching anything, up to a dot |
| Spawning.SpawnTakesEffectIff | spawnd/state/repository.py:140-169 | a spawn changes the run iff the name is free, the spawner is known and its cap is not reached |
| Spawning.CapKeptIff | spawnd/state/repository.py:156-169 | a spawn keeps the cap of a manager unless the manager is full, the worker is named after it, the name is free and the spawner is known and below its own cap |
| Spawning.OwnSpawnsKeepCap | spawnd/state/repository.py:156-169 | spawns by the manager itself keep its cap |
| Witnesses.QueuedAfterStop | spawnd/state/repository.py:1620-1671 | an execution in which an expiry pass queues an agent after the stop |
| Witnesses.CancelledByStop | spawnd/state/repository.py:1620-1671 | the same rows in the other order, and the agent is cancelled |
| Witnesses.OrphanedAttempt | spawnd/state/repository.py:647-687 | an execution after which completion and failure without attempt id break single ownership |
| Witnesses.SuccessorCancelled | spawnd/workers/worker.py:605-631 | an execution in which a worker that lost its lease ends the attempt of its successor |
| Witnesses.ResumedBehindFailure | spawnd/state/repository.py:1094-1123 | an execution in which resumption puts an agent behind a dependency that stays failed |
| Witnesses.ResumedBehindCancelled | spawnd/state/repository.py:1094-1123 | an execution in which a cancelled run is resumed and an agent is stranded |
| Witnesses.BreakerMissed | spawnd/state/repository.py:990-1000 | an execution that ends with failures at the threshold of cancel_all and an agent queued |
| Witnesses.BreakerMissedByExpiry | spawnd/state/repository.py:1629-1675 | an execution in which an expiry pass reaches the threshold of cancel_all with an agent queued |
| Witnesses.CancelAgentCanStrand | spawnd/state/repository.py:424-460 | an execution of two steps that leaves an agent pending behind a cancelled one |
| Witnesses.CancelAgentStrandsForGood | spawnd/state/repository.py:424-460 | in every continuation of that execution the agent is never queued, running or completed |
| Witnesses.CapExceeded | spawnd/state/repository.py:142-213 | an execution in which another agent spawns a worker that counts against a full cap |
| Store.PassSplitsByRun | spawnd/state/repository.py:1629-1677 | the pass over all runs does to each run what a pass over its own rows does |
| Store.StaleOfRun | spawnd/state/repository.py:1620-1628 | the stale rows of one run are a listing of its stale agents |
| Store.NothingBecomesReady | spawnd/state/repository.py:1674-1675 | within an expiry pass no agent becomes ready |
| Store.HintsAreRetries | spawnd/state/repository.py:1629-1677 | the pass reports exactly the stale agents that may retry, in row order |
| Store.RetryableMeans | spawnd/state/repository.py:1630-1631 | those are the agents whose policy is retry with a retry left |
| Store.AffectedRunsRollUp | spawnd/state/repository.py:1676-1680 | every run with a stale row is rolled up after the pass, and no other run changes |
| Calls.CompleteCallKeepsGood | spawnd/state/repository.py:647-699 | a whole fenced completion call keeps the invariants |
| Calls.FailCallKeepsGood | spawnd/state/repository.py:907-1002 | a whole fenced failure call keeps the invariants |
| Calls.ResumeCallKeepsGood | spawnd/state/repository.py:1089-1126 | resumption with release and roll-up keeps the invariants |
| Calls.ExpiryKeepsGood | spawnd/state/repository.py:1610-1681 | the expiry pass over all runs with its roll-ups keeps the invariants of every run |
| Calls.LateReportIgnored | spawnd/state/repository.py:647-714 | a report for an attempt that is over changes nothing and announces nobody |
| Calls.CompleteCallIsSteps | spawnd/state/repository.py:647-699 | an undisturbed completion call is one step and a roll-up, or nothing |
| Calls.FailCallIsSteps | spawnd/state/repository.py:907-1002 | an undisturbed failure call is one step and a roll-up, or nothing |
| Calls.CancelCallIsSteps | spawnd/state/repository.py:424-460 | an undisturbed cancellation call is one step and a roll-up, or nothing |
| Calls.ResumeCallIsSteps | spawnd/state/repository.py:1089-1126 | an undisturbed resumption is a step, a release and a roll-up, or nothing |
| Calls.ExpireEach | spawnd/state/repository.py:1629-1677 | the loop over stale rows of all runs, with its report |
| Repository.DeployedRepository.CreateRun | spawnd/state/repository.py:76-121 | a new run iff the id is free and names are distinct; of a valid plan, with the invariants |
| Repository.DeployedRepository.SpawnWorkerAgent | spawnd/state/repository.py:123-221 | refused for an unknown run, a taken name, an unknown manager or a cap that the counted names have reached; otherwise row and spec grow together |
| Repository.DeployedRepository.ReadyAgents | spawnd/state/repository.py:462-484 | the claimable agents of the run |
| Repository.DeployedRepository.MarkNewlyReadyAgents | spawnd/state/repository.py:517-522 | releases pending agents and answers with all claimable ones |
| Repository.DeployedRepository.ClaimAgent | spawnd/state/repository.py:524-609 | the answer describes the attempt and the lease that the tables now hold; a refusal changes nothing |
| Repository.DeployedRepository.RenewLease | spawnd/state/repository.py:611-645 | renews agent and attempt iff worker and token hold the lease of the running agent |
| Repository.DeployedRepository.CompleteAgent | spawnd/state/repository.py:647-699 | new rows, roll-up and answer for every caller, with or without attempt id |
| Repository.DeployedRepository.FailAgent | spawnd/state/repository.py:907-1002 | new rows, roll-up and answer for every caller, with or without attempt id |
| Repository.DeployedRepository.CancelAgent | spawnd/state/repository.py:424-460 | cancels any live agent, whoever runs it, and rolls up |
| Repository.DeployedRepository.CancelRun | spawnd/state/repository.py:1004-1047 | cancels a live run and answers with the number of agents |
| Repository.DeployedRepository.ResumeRun | spawnd/state/repository.py:1089-1126 | resumes, releases and rolls up iff an agent is eligible, and lists exactly those |
| Repository.DeployedRepository.RefreshRunStatus | spawnd/state/repository.py:1049-1087 | a cancelled or cost-exceeded run is left alone; otherwise status and total cost follow the agents |
| Repository.DeployedRepository.ExpireStaleLeases | spawnd/state/repository.py:1610-1681 | all stale rows of all runs, then a roll-up of each affected run |
| Repository.DeployedRepository.ListRuns | spawnd/state/repository.py:228-235 | the newest runs in order, and every run when the limit allows |
| Repository.NewestListed | spawnd/state/repository.py:228-235 | position i of the listing is the i-th newest run |
| Repository.RecordedIsDue | spawnd/state/repository.py:1556-1569 | a recorded row that is due joins the due rows behind those that were due before |
| Repository.AnnouncedIsDue | spawnd/state/repository.py:1556-1569 | a row as announced is due at any time |
| Repository.PublishedNeverDue | spawnd/state/repository.py:1571-1593 | a published row is never read again, and no other row is affected |
| Repository.PostponedUntil | spawnd/state/repository.py:1595-1608 | a postponed row is read again from its time on unless it was published, and no other row is affected |
| Repository.DeployedRepository.PendingQueueOutbox | spawnd/state/repository.py:1579-1593 | the first due rows by creation |
| Repository.DueIdsExact | spawnd/state/repository.py:1583-1591 | a row is read iff it is pending and due, once, oldest first |
| Coordination.InMemoryCoordinator.ReadAgent | spawnd/coordination/redis.py:207-210 | the oldest hint leaves the queue |
| Submission.SubmitPlan | spawnd/state/submission.py:15-39 | invalid iff validation fails; otherwise the run exists and every claimable agent is announced, sent and marked |
| Submission.EnqueueNewlyReadyAgents | spawnd/state/submission.py:164-178 | releases pending agents and announces every claimable one |
| Submission.ClaimNextAgent | spawnd/state/submission.py:181-206 | whatever the queue holds, the tables change by one allowed claim or not at all; the hint is acknowledged either way |
| Submission.PublishReadyAgent | spawnd/workers/worker.py:1224-1227 | outbox row, hint, mark, in this order |
| Submission.Cancel | spawnd/api.py:229-235 | a live run ends with all its agents in the tables, and its mark ends every further round of lease renewal |
| Submission.AnnounceDelivers | spawnd/workers/worker.py:1224-1227 | every announced hint is in the stream, in order, with a published row |
| Worker.ReconcileReadyAgents | spawnd/workers/worker.py:1184-1201 | after one undisturbed pass every claimable agent of the listed runs has a hint, none twice, and none that was neither claimable nor requeued |
| Worker.ReconcileWakes | spawnd/workers/worker.py:1184-1201 | for every reached run that nobody resumed: if it is idle but unfinished after the pass, a hint is in the stream that a worker can claim |
| Worker.PassReport | spawnd/state/repository.py:1610-1681 | the expiry pass of a sound store reports each agent at most once and keeps the store sound |
| Worker.DrainQueueOutbox | spawnd/workers/worker.py:1204-1221 | every due row is sent and marked, or postponed where handling it raised |
| Worker.DrainDelivers | spawnd/workers/worker.py:1209-1220 | exactly the rows without a fault become published, and their hints are sent |
| Worker.DrainPostpones | spawnd/workers/worker.py:1209-1220 | a row that raised counts the attempt and waits for its time; a row that was not read stays as it is |
| Worker.DrainKeepsDelivered | spawnd/workers/worker.py:1204-1221 | every published row has its hint in the stream, whatever raises |
| Worker.AnnounceKeepsDelivered | spawnd/workers/worker.py:1224-1227 | and publishing keeps that |
| Worker.QuietDrainFinishes | spawnd/workers/worker.py:1204-1221 | a pass without faults that reads all due rows leaves none pending |
| Worker.PublishIsMoves | spawnd/workers/worker.py:1224-1227 | publishing is three moves of the outbox protocol |
| Worker.DrainIsMoves | spawnd/workers/worker.py:1209-1220 | handling one row, with a fault at either place or none, is a sequence of moves of the protocol |
| Worker.FailClaimedAgent | spawnd/workers/worker.py:1151-1174 | the failure is reported under the worker's attempt, requeued agents are announced, and the status says whether the agent is queued again |
| Worker.CompleteClaimedAgent | spawnd/workers/worker.py:349-358 | completion under the worker's attempt, then two rounds of announcements |
| Worker.LookUpClaimed | spawnd/workers/worker.py:129-149 | what the worker finds when it starts; in a sound run the agent is never missing from the spec |
| Worker.FinishClaimed | spawnd/workers/worker.py:150-362 | what each outcome makes of the run as it is by then, which status is reported and which hints are published |
| Worker.LateOutcomeIgnored | spawnd/workers/worker.py:349-356 | a worker whose attempt is over changes nothing, unless it was interrupted |
| Worker.ReportIsTrue | spawnd/workers/worker.py:128-362 | while its attempt runs, the status that a worker reports is the status of the agent afterwards |
| Worker.ReportedHintsAreTrue | spawnd/workers/worker.py:349-358 | and the hints it publishes name exactly who may start now, or the agent that is queued again |
| Worker.LateCancelIgnoredIff | spawnd/workers/worker.py:605-631 | an interrupted worker leaves the agents alone iff the agent is over, and otherwise ends whichever attempt runs it |
| Worker.SpecHoldsAgent | spawnd/workers/worker.py:139-149 | the branch for an agent missing from the spec is never taken |
| Worker.ReportKeepsGood | spawnd/workers/worker.py:128-362 | no report, however late, breaks an invariant |
| Worker.RenewOnce | spawnd/workers/worker.py:788-807 | one round of renewal goes on iff the run is not cancelled and both leases hold |
| Outbox.AtLeastOnce | spawnd/workers/worker.py:1204-1227 | with crashes between any two writes, every announced hint is pending or in the stream; marks and stream never shrink |
| Outbox.NothingInvented | spawnd/workers/worker.py:1204-1227 | the stream holds only hints that were announced |
| Outbox.CrashSendsTwice | spawnd/workers/worker.py:1204-1227 | not exactly once: a trace in which one row is sent twice |
| Outbox.MoveKeepsSound | spawnd/workers/worker.py:1204-1227 | every write of every process keeps the protocol invariant |

## Left out

- Transaction isolation and row locks: each transaction is atomic; `Fencing.SnapshotClaimsFit` is the one statement about checks made on an older snapshot.
- Attempt id and lease token: both are the position of the attempt, one fresh number for the two random identifiers.
- `worker_id`, `lease_token`, `leased_until` and `heartbeat_at` are one optional lease, since they are set and cleared together.
- Creation-time ties and row order without `ORDER BY`: rows come in insertion order, and the answer of the stale-lease query in any order.
- Dependency lists are sets in the rows; duplicates within one list make no difference to any test of the source.
- Costs are exact reals instead of floating-point numbers; token counts are not modelled.
- The event log is kept for `done` events only; event payloads, error texts and timestamps other than lease times are not part of the model.
- SQL `LIKE` has no escape character here, since no agent name contains one; the resolved policy and retry count of a spawned worker are arbitrary.
- Role, server and name-pattern checks of `validate_plan`: single-branch facts.
- `get_ready_agents`, `get_blocked_by_failure`, `reverse_topological_order`, `resolve_dependencies` and `get_merge_order`: one-line consequences of what is modelled.
- Templates, schedules, submission messages, artifacts, telemetry, notifications, worker heartbeats, git and runtime execution: foreign calls and write-only records; the outcome of an attempt is a parameter.
- Redis itself: the coordinator is the in-memory one, without expiry of lease keys; the theorems about runs assume nothing about it.
- Worker.FinishClaimed: the setup, runtime, check and delivery are one outcome; the steps that others take meanwhile are those of `Steps`.
- Worker.RenewOnce: one round of the renewal loop, since any steps may come between rounds; what a series of successful rounds guarantees is `Fencing.RenewalsMeanOwnership`.
- Worker.ReconcileReadyAgents: covers the thousand newest runs, as the source does, and other steps do not come between.
- Outbox.AtLeastOnce: rows for an empty agent name are excepted, because a drainer publishes those as plain events.
