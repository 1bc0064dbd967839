# Device task engine: a verified model

This project models the parts of the device workbench in which order, ownership and bookkeeping are hard to get right, and
proves what they keep:

- **The task and workflow engine.** A task plan is a dependency graph of nodes. The task orchestrator walks it, starts a
  child run per node in the workflow runtime, retries, repeats, continues past failures, runs parallel groups as batches,
  and can resume at a step. The runtime drives each run through its states, and fences runs whose last action is
  uncertain. Both keep reference-counted device claims in a resource coordinator, which rests on a table of device leases.
- **The transfer queue.** Per session one worker takes queued transfers in order; transfers can be cancelled, a terminal
  can be taken over, the queue can be paused and resumed, and a whole session can be cancelled.
- **Four calculations.** Which old packages to delete before an upgrade, how long a supervisor may sleep before the next
  deadline, how deep activities may prepare for each other, and what binding the references of an expression means.

Objects whose methods change their fields are classes here (`DeviceLeaseService`, `LeaseResourceCoordinator`,
`WorkflowRuntime`, `TaskOrchestrator`, `TaskService`, `OperationManager`, `TransferQueue`), loops are loops, and each method is proved
against a specification over values. What the program promises is proved about those specifications.

## How the layers fit together

| layer | modules | main results |
|---|---|---|
| graphs and plans | `Ids`, `Graphs`, `TaskPlans`, `PlanChecks`, `Batches` | the order is the one by depth and id; both schedulers agree |
| claims | `DeviceLeases`, `ResourceBook`, `Resources`, `Holdings`, `Keeping` | counts equal entries, two levels agree, a stale lease never speaks again |
| runs | `Workflows`, `RunTheory`, `Drives`, `Runtime` | recovery fence, absorbing ends, one submission per decision point, drives end with a bounded number of handler calls |
| tasks | `Passes`, `PassSafety`, `Histories`, `Resumption`, `Groups`, `TaskChildren`, `Orchestrator`, `TaskService` | each call is a step of the plan's view, and any calls on any tasks add up to a history of each; success is sound; inputs are available; single live child, released owner, resume safety and agreement of batches with single visits under exact conditions; calls spare other tasks |
| transfers | `Transfers`, `TransferService` | safety and progress in every sequence of steps; the tables refine one machine per session |
| calculations | `Cleanup`, `Deadlines`, `Preparation`, `Expressions` | optimal choice, exact sleeping time, attained bound, preserved meaning |

A task is seen in two ways. `Passes.View` is what matters from the plan: the status of each node's recorded child, whether
a live child has been forgotten, the keys of the outputs, the nodes whose failure was continued past, and the status of
the task. The class `TaskOrchestrator` works on runs, entries and claims; each of its calls is proved to be the step on
the view that the plan-level theorems are about. The class `TaskService` keeps a history for each task with an owner of its
own, so that what is proved about histories holds of the objects after any sequence of calls. The outside (conditions, builders of workflows, handlers, providers,
clocks, new ids) is a parameter of the calls; a `Fate` says what one visit of a node met with.

## What turned out not to hold everywhere

Where a natural expectation fails, the model keeps what the code does, the exact condition is proved, and a lemma gives
inputs on which it fails.

- Resuming can start a node although one of its dependencies has never been run, when the plan has parallel groups. It is
  safe for every record that holds the dependencies of what it holds if and only if each dependency of a batch member
  comes before the batch's first node (`Resumption.ResumeSafety`). Under the same condition, and only under it, it never
  happens to a task: otherwise a first pass in which a batch fails, a restart at a step and a second pass lead to it
  (`Resumption.ResumeSafetyInHistories`; the smallest plans are those of `Resumption.ResumeCanOvertake`).
- A task on a plan without groups can have two live children: a node that its condition skipped earlier may start while a
  later child is live, and resuming at a step forgets a child but not that its failure was continued past. It never
  happens, whatever the conditions say, if and only if no node but the last has a condition or continues after a failure,
  or the plan is refused for its input references (`Histories.SingleChild`). For the plan the conditions are any fixed
  function of the node and the keys of the outputs: where a condition skips a node until the node is a key of the outputs,
  which skipping makes it, the node starts late.
  A task that is over has no live child under a similar exact condition (`Histories.OverHasNoLiveChild`).
- The retry limit counts attempts under the state's id, but attempts are recorded under the action's id. A failing action
  is retried without end if and only if the two differ and the count is below the limit (`Drives.RetryIsEndless`; a
  definition for every limit: `Runtime.SomeRetryIsEndless`).
- Recording an acquired lease keeps the counts right if and only if it does not overwrite an entry that carries the token
  of a claim (`Holdings.AcquireConserves`; asking twice under one key: `Holdings.OverwritingMiscounts`).
- The sleeping time is exact if and only if a nearest deadline is counted from a stamp that can be read and is not in the
  future (`Deadlines.CalculationIsExact`; every other stamp makes it wake up before the incident:
  `Deadlines.UncountedIsMissed`). Sleeping past an incident is impossible in any case (`Deadlines.NeverSleepsPast`).
- Binding references first gives the same value or failure as looking them up when they are reached if and only if every
  reference resolves or the direct evaluation fails anyway (`Expressions.BindingPreservesMeaning`; a reference behind a
  short cut: `Expressions.UnreachedReferenceFails`). This needs the names that binding makes to be free. Binding makes one new name per reference if and only if no key of the environment is one
  of them (`Expressions.BindFits`); from the first name that is taken on, all references share it, and what the expression
  then means is stated for every environment (`Expressions.BindingDecides`; `Expressions.CollidingKeyChangesMeaning`).
- Executing nodes as a batch and executing them one by one do not agree about members that end without success. A member
  marked to continue is passed over in a batch whatever it ended with, even if its child waits for a decision, while one by
  one only a failure or a cancellation is passed over; a member that is not marked stops both, but a batch forgets its
  children. If no member raises, the two agree in every detail if and only if each member that ends without success is
  marked and has failed or been cancelled; where some member raises, if and only if nothing has happened before it
  (`Groups.BatchIsOneByOne`; the marked member that waits: `Groups.WaitingMember` and `Groups.WaitingPair`). A first pass
  can therefore make the task succeed beside a live child if and only if some member of a batch of several nodes is marked
  (`Groups.FirstPassBesideLive`).

## Model

| member | source | states |
|---|---|---|
| `Graphs.AcyclicIsLeveled` | device_tui/framework/orchestrator.py:165-175 | a closed graph without a cycle can be placed completely in rounds, each of nodes whose edges lead to earlier rounds |
| `Graphs.LevelIsDepth` | device_tui/framework/orchestrator.py:165-175 | the round a node is placed in is the length of the longest dependency chain from it |
| `Graphs.WanderingHasCycle` | device_tui/framework/orchestrator.py:169-171 | a non-empty set of nodes that all depend on a member of the set contains a dependency cycle |
| `TaskPlans.OrderedNodes` | device_tui/framework/orchestrator.py:165-175 | succeeds if and only if all dependencies are nodes and there is no cycle; the result holds each node once, strictly sorted by longest dependency chain, then by id |
| `TaskPlans.OrderIgnoresListing` | device_tui/framework/orchestrator.py:165-175 | two listings of the same nodes get the same order: the order is unique |
| `TaskPlans.PermutedListing` | device_tui/framework/orchestrator.py:166 | with unique ids, how the nodes are listed does not matter to the dictionary that the order is computed from |
| `TaskPlans.DependencyPrecedes` | device_tui/framework/orchestrator.py:165-175 | every dependency of a node stands before the node in the order |
| `PlanChecks.Validate` | device_tui/framework/orchestrator.py:143-163 | accepts exactly the plans with an id, a version, nodes, unique named nodes, known dependencies, independent groups and no cycle; the duplicate, group and cycle errors are reported only for plans with that defect |
| `PlanChecks.CheckGroups` | device_tui/framework/orchestrator.py:155-162 | holds if and only if no member of a parallel group depends directly on another member of it |
| `PlanChecks.CheckNodes` | device_tui/framework/orchestrator.py:149-154 | finds no error if and only if every node names a workflow and depends on known nodes only; an error found is there |
| `PlanChecks.UniqueSize` | device_tui/framework/orchestrator.py:146-148 | there are as many distinct ids as nodes if and only if no two nodes share an id |
| `PlanChecks.DownstreamNodeIds` | device_tui/framework/orchestrator.py:506-515 | the sweeps end with exactly the nodes from which the step is reached along dependencies |
| `PlanChecks.DownstreamIsLeast` | device_tui/framework/orchestrator.py:506-515 | every set that holds the step and is closed under dependents includes the dropped nodes |
| `PlanChecks.KeptIsIndependent` | device_tui/framework/orchestrator.py:480-515 | a node whose result is kept depends on no dropped node, directly or through others |
| `PlanChecks.ComputeAncestors` | device_tui/framework/orchestrator.py:770-780 | each ancestor set is the transitive closure of the dependencies of its node |
| `PlanChecks.ValidateInputDependencies` | device_tui/framework/orchestrator.py:770-808 | accepts exactly the plans in which every node output named by an input belongs to a transitive dependency |
| `Batches.ExecutionBatches` | device_tui/framework/orchestrator.py:177-202 | succeeds exactly when the order exists; forms the batches of that order round by round |
| `Batches.FirstPendingIsReady` | device_tui/framework/orchestrator.py:189-197 | the first pending node in order is always ready, so the second cycle error cannot be reached and this node heads the next batch |
| `Batches.BatchesAreSafe` | device_tui/framework/orchestrator.py:177-202 | the batches always exist, and each needs only what earlier batches have done |
| `Batches.BatchesPartition` | device_tui/framework/orchestrator.py:177-202 | the batches hold each node exactly once |
| `Batches.HeadsInOrder` | device_tui/framework/orchestrator.py:177-202 | batches are listed in the order of their first nodes |
| `Batches.FreshWalkIsBatches` | device_tui/framework/orchestrator.py:552-617 | the walk of a first pass visits exactly the execution batches, one after the other: the two schedulers agree |
| `Batches.ResumeSafeWalk` | device_tui/framework/orchestrator.py:552-617 | if each dependency of a member of a batch precedes the first node of the batch, the walk visits every node after its dependencies, whatever runs are recorded |
| `DeviceLeases.DeviceLeaseService.constructor` | device_tui/application/device_control/lease.py:29-33 | an empty table; the lifetime is kept between 30 seconds and a day |
| `DeviceLeases.DeviceLeaseService.Expire` | device_tui/application/device_control/lease.py:87-91 | drops exactly the leases that have run out |
| `DeviceLeases.DeviceLeaseService.Acquire` | device_tui/application/device_control/lease.py:35-51 | re-entrant for the holder with the same token, refused with the holder's name for anybody else, otherwise a new tenure with a token never handed out before |
| `DeviceLeases.DeviceLeaseService.Renew` | device_tui/application/device_control/lease.py:53-58 | extends a tenure if and only if it is live and the token is its own; changes neither holder nor token |
| `DeviceLeases.DeviceLeaseService.Require` | device_tui/application/device_control/lease.py:60-62 | finds the live lease that carries the token, and no other |
| `DeviceLeases.DeviceLeaseService.Release` | device_tui/application/device_control/lease.py:64-70 | ends a tenure if and only if the token holds it |
| `DeviceLeases.DeviceLeaseService.Get` | device_tui/application/device_control/lease.py:72-75 | the live lease of a device, after dropping the expired ones |
| `ResourceBook.ExpiryIsSound` | device_tui/framework/resources.py:155-170 | dropping what has run out on both levels keeps counts, distinct tokens and the agreement of claims and table |
| `ResourceBook.ClaimIsSound` | device_tui/framework/resources.py:86-96 | setting a claim with a continued or an unused token keeps all of that |
| `ResourceBook.ReleaseIsSound` | device_tui/framework/resources.py:125-140 | so does giving back one count, or the last one |
| `ResourceBook.RenewalIsSound` | device_tui/framework/resources.py:98-123 | so does extending a tenure |
| `Resources.LeaseResourceCoordinator.constructor` | device_tui/framework/resources.py:60-66 | starts without claims and counts; the default lifetime is at least one second |
| `Resources.LeaseResourceCoordinator.Expire` | device_tui/framework/resources.py:155-170 | afterwards exactly the claims that have not run out are left, with their counts, and the table shows the same devices |
| `Resources.LeaseResourceCoordinator.Acquire` | device_tui/framework/resources.py:68-96 | refused if and only if malformed or held by somebody else, whose name it then reports; otherwise one count more, the holder's own token or one never handed out, and an exact expiry |
| `Resources.LeaseResourceCoordinator.Renew` | device_tui/framework/resources.py:98-123 | succeeds if and only if the lease is current after expiry; only the expiry changes |
| `Resources.LeaseResourceCoordinator.Release` | device_tui/framework/resources.py:125-140 | succeeds if and only if the lease is current: one count less, and no claim once the last is gone; a stale lease changes nothing |
| `Resources.LeaseResourceCoordinator.ReleaseOwner` | device_tui/framework/resources.py:142-153 | ends exactly this owner's claims and counts, leaves all others, and reports the sum of the counts |
| `Resources.LeaseResourceCoordinator.Drain` | device_tui/framework/resources.py:147-152 | releasing until the count is gone ends after exactly as many releases as were counted |
| `Holdings.RetiredForever` | device_tui/framework/resources.py:68-170 | a token that was handed out and is carried by no claim is never carried by a claim again |
| `Holdings.StaleForever` | device_tui/framework/resources.py:98-140 | a lease that has stopped being current is never current again, so releasing or renewing it changes no later tenure |
| `Holdings.AcquireConserves` | device_tui/framework/runtime.py:101-105 | recording an acquired lease keeps every count equal to the number of entries with the claim's token, if and only if the entry it replaces carries the token of no claim |
| `Holdings.OverwritingMiscounts` | device_tui/framework/runtime.py:101-105 | an owner's only lease, requested again under the key it is recorded under: two counts and one entry |
| `Holdings.ReleaseConserves` | device_tui/framework/runtime.py:522-531 | giving back a recorded lease keeps the counts equal to the entries, whether or not its tenure has ended |
| `Holdings.ExpiryConserves` | device_tui/framework/resources.py:155-170 | so does expiry |
| `Keeping.TiedStays` | device_tui/framework/resources.py:68-170 | whatever the coordinator does, an entry whose token is carried by a claim is a lease on that claim |
| `Keeping.RequestConserves` | device_tui/framework/resources.py:68-96 | a granted request, recorded under a free key, keeps both keepers' entries equal to the counts, expiry included |
| `Keeping.RefusalStands` | device_tui/framework/resources.py:75-85 | whether a request is granted depends on the live claims alone, and a refusal leaves its reason in place |
| `Keeping.Hold` | device_tui/framework/orchestrator.py:314-317 | a lease is recorded if and only if the request is granted, it is then current, and all counts stay accounted for |
| `Keeping.GiveBack` | device_tui/framework/orchestrator.py:1103-1114 | taking out an entry and releasing it keeps all counts accounted for, even if its tenure is over |
| `Keeping.NoEntryNoClaim` | device_tui/framework/resources.py:68-170 | an owner in whose name neither keeper has an entry has no claim and no count |
| `Workflows.NextStateIsReference` | device_tui/framework/runtime.py:472-476 | where a completed state leads is one of the states it refers to, or nowhere |
| `RunTheory.StepSettles` | device_tui/framework/runtime.py:95-354 | after every call a live run is on a state of its definition, and has a decision point only while it waits for a decision or is paused |
| `RunTheory.TerminalIsFinal` | device_tui/framework/runtime.py:124-354 | no sequence of calls changes a run that has succeeded, failed or been cancelled |
| `RunTheory.RecoveryFence` | device_tui/framework/runtime.py:248-304 | after a pause or an interruption of a live run, in any sequence of calls a handler runs only after a probe has confirmed success or that the action was not started, or after a decision |
| `RunTheory.ConfirmedSuccessMovesOn` | device_tui/framework/runtime.py:401-452 | a confirmed success moves the run to the following state without another attempt |
| `RunTheory.OneSubmissionPerPoint` | device_tui/framework/runtime.py:312-354 | of two accepted submissions in any sequence of calls, the later one is for a later decision point |
| `RunTheory.AcceptedPoint` | device_tui/framework/decisions.py:29-43 | an accepted submission names the pending decision point, which is gone afterwards for good |
| `Drives.DriveStops` | device_tui/framework/runtime.py:201-231 | the drive loop comes to a run that is neither running nor recovering, by a measure of state level, attempts left, recovery and waiting time |
| `Drives.DriveIsBounded` | device_tui/framework/runtime.py:201-231 | for an acyclic definition whose actions carry their states' ids, a drive stops once no provider answers "in progress", and up to any tick it has run at most the sum of the retry limits plus one handler per such answer |
| `Drives.DriveBlocks` | device_tui/framework/runtime.py:201-231 | a drive leaves a live run running, recovering, succeeded, failed or waiting for a decision: it never cancels or pauses one |
| `Drives.TickPays` | device_tui/framework/runtime.py:124-199 | every handler call is paid for by the attempts the run may still make, or by an answer "in progress" |
| `Drives.RetryIsEndless` | device_tui/framework/runtime.py:393 | a failing action that is retried on each answer never blocks, if and only if its id differs from the state's and the count is below the limit |
| `Drives.MiskeyedRetriesForever` | device_tui/framework/runtime.py:393 | with a differing id below the limit, every tick of every length runs the handler again |
| `Drives.CountedRetriesStop` | device_tui/framework/runtime.py:356-399 | otherwise some tick blocks the run |
| `Runtime.WorkflowRuntime.RegisterDefinition` | device_tui/framework/runtime.py:91-93 | registers exactly the valid definitions, under id and version |
| `Runtime.WorkflowRuntime.Start` | device_tui/framework/runtime.py:95-122 | starts if and only if the definition is valid and the device is free or the owner's; the new run is at its start state and its entry is a current lease of the owner on the device |
| `Runtime.WorkflowRuntime.Save` | device_tui/framework/runtime.py:522-531 | replaces the run and gives its lease back if and only if it has ended |
| `Runtime.WorkflowRuntime.Tick` | device_tui/framework/runtime.py:124-199 | one step, exactly as the run's specification says, whatever is saved in between; nothing for a run that is not driven |
| `Runtime.WorkflowRuntime.Dispatch` | device_tui/framework/runtime.py:140-184 | attempt recorded, progress checkpoints saved, facts kept, attempt closed: the intermediate saves add up to the specified run |
| `Runtime.WorkflowRuntime.ActionRun` | device_tui/framework/runtime.py:134-199 | success moves on by the observed events, a failure is reconciled |
| `Runtime.WorkflowRuntime.ReconcileRun` | device_tui/framework/runtime.py:356-399 | the provider's answer decides between monitoring, moving on, another attempt within the limit, and a decision |
| `Runtime.WorkflowRuntime.RecoverRun` | device_tui/framework/runtime.py:401-452 | a recovering run asks the provider first, or waits for its next probe |
| `Runtime.WorkflowRuntime.ExecutionRun` | device_tui/framework/runtime.py:533-552 | the token handlers see is the run's entry; a run without one acquires it if and only if the request is granted |
| `Runtime.WorkflowRuntime.RunUntilBlocked` | device_tui/framework/runtime.py:201-231 | ticks exactly until the run is neither running nor recovering, and saves what those ticks make of it; a run that was driven has then succeeded, failed, or waits for a decision |
| `Runtime.SomeDriveEnds` | device_tui/framework/runtime.py:201-231 | for each of these three endings there is a valid definition whose new run is driven to it |
| `Runtime.SomeRetryIsEndless` | device_tui/framework/runtime.py:356-399 | for every limit and every answer but "in progress": a valid definition whose new run calls its handler at each tick and never blocks |
| `Runtime.WorkflowRuntime.MarkInterrupted` | device_tui/framework/runtime.py:248-259 | pauses a live run and requires recovery, leaves a pending decision alone |
| `Runtime.WorkflowRuntime.Pause` | device_tui/framework/runtime.py:279-290 | pauses a live run and requires recovery |
| `Runtime.WorkflowRuntime.Resume` | device_tui/framework/runtime.py:292-304 | a stopped run goes on, through recovery if that is required |
| `Runtime.WorkflowRuntime.Cancel` | device_tui/framework/runtime.py:306-310 | a live run is cancelled and gives its lease back |
| `Runtime.WorkflowRuntime.ApplyDecision` | device_tui/framework/runtime.py:312-354 | accepted if and only if it answers the pending decision point in its revision with an allowed option and inputs; otherwise nothing changes |
| `Runtime.CallKeeps` | device_tui/framework/runtime.py:522-531 | every call keeps every run sound and leaves exactly the live runs with an entry |
| `Runtime.AcyclicDriveEnds` | device_tui/framework/runtime.py:201-231 | a drive of an acyclic definition ends once the providers stop answering "in progress" |
| `Passes.AttemptsBounded` | device_tui/framework/orchestrator.py:660-735 | one visit starts at most attempts times iterations children, never more than 100, and all but the last have succeeded or failed |
| `Passes.SuccessIsSound` | device_tui/framework/orchestrator.py:554-738 | a pass makes the task succeed only if every node has a succeeded child, has none because its condition told this pass to skip it, or is marked to continue after a failure |
| `Passes.PassIsSound` | device_tui/framework/orchestrator.py:554-738 | a pass continues past marked nodes only, whichever way it ends, and makes the task succeed only if every node has a succeeded child, has a condition and no child, or is marked so |
| `Passes.LastEnding` | device_tui/framework/orchestrator.py:660-735 | a visit that got through its loops ended with a success, one that stopped ended with something else |
| `PassSafety.PassFollowsWalk` | device_tui/framework/orchestrator.py:552-617 | a pass visits what the walk over the batches visits, up to where it stops, although it records children as it goes |
| `PassSafety.FreshPassIsSafe` | device_tui/framework/orchestrator.py:552-617 | a first pass visits a prefix of the execution batches, and no node before its dependencies have been visited and passed |
| `PassSafety.ResumedPassIsSafe` | device_tui/framework/orchestrator.py:552-617 | neither does a later pass over a resume-safe plan, whatever is recorded |
| `PassSafety.AncestorsAvailable` | device_tui/framework/orchestrator.py:769-808 | when a node of a safe pass is visited, everything it depends on, directly or not, is a key of the outputs |
| `PassSafety.InputsAvailable` | device_tui/framework/orchestrator.py:829-868 | so every plan node that an input of a visited node refers to is a key of the outputs when the input is resolved |
| `PassSafety.HeadsOfPlan` | device_tui/framework/orchestrator.py:552-553 | the several-node batches of an acceptable plan hold nodes of the order, lie behind their first nodes and share no node |
| `PassSafety.UngroupedHasNoHeads` | device_tui/framework/orchestrator.py:552-553 | a plan without parallel groups is executed node by node |
| `Histories.SingleChild` | device_tui/framework/orchestrator.py:341-529 | for all fixed answers of the conditions and over all histories of calls, a task on a plan without groups has at most one live child and none forgotten, if and only if no node but the last has a condition or continues after a failure, or its inputs are out of order; under that condition it holds even if answers change |
| `Histories.OverHasNoLiveChild` | device_tui/framework/orchestrator.py:341-529 | likewise, a task that is over has no live child if and only if no node continues after a failure and only the last has a condition, or its inputs are out of order |
| `Histories.SkippedNodeStartsLate` | device_tui/framework/orchestrator.py:651-657 | for any node with a condition before the last one: under the answers that skip it until it is a key of the outputs, a history of two executions in which it starts, and waits for a decision or fails, while the next node's child is live |
| `Histories.NextNodeStartsToo` | device_tui/framework/orchestrator.py:627-637 | for any node before the last that continues after a failure: without any skipping, a history in which the next node starts beside its live child |
| `Histories.SucceedsWithLiveChild` | device_tui/framework/orchestrator.py:627-637 | for any node that continues after a failure: without any skipping, a history in which the task succeeds while its child is live |
| `Resumption.ResumeSafety` | device_tui/framework/orchestrator.py:552-617 | for all records that hold the dependencies of what they hold, the walk starts no unrecorded node whose dependency is neither recorded nor visited before, if and only if each dependency of a member of a batch precedes the first node of the batch |
| `Resumption.ResumeSafetyInHistories` | device_tui/framework/orchestrator.py:480-617 | under the same condition, and only under it, no pass after an execution and a restart at a step starts such a node; otherwise a batch that fails on a new task, and a restart at a step, lead to a pass that does |
| `Resumption.ResumeCanOvertake` | device_tui/framework/orchestrator.py:558 | for any two groups of two whose second members depend on each other one way: the order, the batches, and such a history |
| `Resumption.RecordIsClosed` | device_tui/framework/orchestrator.py:480-515 | what is recorded after a failed batch and a restart at a step holds the dependencies of all its nodes |
| `Groups.BatchIsOneByOne` | device_tui/framework/orchestrator.py:557-738 | for untouched nodes and the same fates, the batch and the single visits have the same outcome in every detail, if and only if each member that ends without success is marked and has failed or been cancelled, or, where one raises, nothing has happened before |
| `Groups.WaitingMember` | device_tui/framework/orchestrator.py:572-580 | a marked member whose child waits for a decision: the batch goes on and records the waiting child as continued past, one by one the task stops |
| `Groups.WaitingPair` | device_tui/framework/orchestrator.py:572-580 | two nodes and their fates for which this happens to a new task |
| `Groups.FirstPassBesideLive` | device_tui/framework/orchestrator.py:552-738 | a first pass over a plan can make the task succeed while a child is live, if and only if some member of a batch of several nodes is marked to continue after a failure |
| `TaskChildren.OthersStay` | device_tui/framework/orchestrator.py:294-767 | a call on one task changes nothing of what another owner's task looks like, except that a forgotten run of that owner may end |
| `TaskChildren.StaysApart` | device_tui/framework/orchestrator.py:667-690 | children are new runs, so no two tasks ever have a child in common |
| `TaskChildren.ActiveSpares` | device_tui/framework/orchestrator.py:341-417 | passing a call on to the active child touches no run but the children of this task |
| `TaskChildren.ExecutionIsStep` | device_tui/framework/orchestrator.py:531-767 | executing a plan without groups is a step of the histories above |
| `TaskChildren.ExecutionIsSound` | device_tui/framework/orchestrator.py:531-767 | executing keeps it true that only marked nodes have been continued past, and makes the task succeed only if every node ends well |
| `Orchestrator.TaskOrchestrator.Start` | device_tui/framework/orchestrator.py:294-327 | creates a running task without children if and only if the plan is valid, a device is given and its lease is granted; the recorded lease is current |
| `Orchestrator.TaskOrchestrator.Execute` | device_tui/framework/orchestrator.py:531-767 | refused exactly for an unknown task, an invalid plan, another plan's task or a lease that is not granted; otherwise the task becomes what one pass over the plan makes of it, or fails if its inputs are out of order, and runs of others are spared; if only marked nodes have been continued past, that stays so, and the task succeeds only if every node has a succeeded child, has a condition and no child, or is marked |
| `Orchestrator.TaskOrchestrator.RunPlan` | device_tui/framework/orchestrator.py:550-767 | one pass in the unique order with the batches of the plan |
| `Orchestrator.TaskOrchestrator.PassOver` | device_tui/framework/orchestrator.py:554-738 | the loop over the order is a pass of the plan's view, position by position |
| `Orchestrator.TaskOrchestrator.VisitPosition` | device_tui/framework/orchestrator.py:554-657 | members of finished batches are passed over; an untouched batch is visited as a whole, any other node by itself |
| `Orchestrator.TaskOrchestrator.VisitRecordedNode` | device_tui/framework/orchestrator.py:616-650 | a recorded child that still runs is driven; the task goes on after a success or a failure that may be continued past, and otherwise follows the child |
| `Orchestrator.TaskOrchestrator.VisitNewNode` | device_tui/framework/orchestrator.py:651-737 | skipped exactly if its condition says so; otherwise a child is started unless preparing it fails or it cannot be started now |
| `Orchestrator.TaskOrchestrator.RunNode` | device_tui/framework/orchestrator.py:660-735 | the loops over iterations and attempts start the children that the plan's view says, stop early only if the next child cannot be started, and record the last one |
| `Orchestrator.TaskOrchestrator.Attempt` | device_tui/framework/orchestrator.py:668-692 | a child is started for the owner if and only if the definition is valid and the device is free or the owner's, and is then driven to where the drive of its definition blocks |
| `Orchestrator.TaskOrchestrator.VisitParallel` | device_tui/framework/orchestrator.py:557-615 | a batch goes on if no member raises or falls short, and records all its children; otherwise its children are cancelled and forgotten, and the first failure decides the status |
| `Orchestrator.TaskOrchestrator.RunBatch` | device_tui/framework/orchestrator.py:419-467 | the members' branches in any interleaving of their steps: each goes through its own loops, every member is recorded with its last ending, and nobody else's children are touched |
| `Orchestrator.TaskOrchestrator.RaiseTask` | device_tui/framework/orchestrator.py:739-767 | an exception cancels every recorded live child and fails the task |
| `Orchestrator.TaskOrchestrator.SaveTask` | device_tui/framework/orchestrator.py:1103-1114 | a task that is over gives its lease back, once |
| `Orchestrator.TaskOrchestrator.ActiveChild` | device_tui/framework/orchestrator.py:469-478 | finds a live child if and only if there is one |
| `Orchestrator.TaskOrchestrator.Pause` | device_tui/framework/orchestrator.py:341-353 | a task that is not over waits for reconciliation, and a live child, if any, is paused; nothing else changes |
| `Orchestrator.TaskOrchestrator.Cancel` | device_tui/framework/orchestrator.py:371-383 | a task that is not over is cancelled, and so is a live child, if any; nothing else changes |
| `Orchestrator.TaskOrchestrator.Resume` | device_tui/framework/orchestrator.py:355-369 | at a given step of the plan, with the live child, or at the first failed step in order when nothing is live and the task has failed; refused exactly for an unknown task, an unknown step or a plan that cannot be ordered |
| `Orchestrator.TaskOrchestrator.RestartAt` | device_tui/framework/orchestrator.py:480-503 | cancels a live child and forgets children and outputs of exactly the step and what depends on it |
| `Orchestrator.TaskOrchestrator.FailedChildStep` | device_tui/framework/orchestrator.py:517-529 | the first node in order whose child failed or was cancelled, or none |
| `Orchestrator.TaskOrchestrator.ApplyDecision` | device_tui/framework/orchestrator.py:399-417 | refused, without any change, only if no child is live or the live child does not accept; otherwise the task goes on if the child runs or has succeeded, and follows it if not |
| `Orchestrator.OwnerReleased` | device_tui/framework/orchestrator.py:1103-1114 | a task that is over, without a live or forgotten child, leaves its owner without claims and counts |
| `Orchestrator.OverTaskOwnsNothing` | device_tui/framework/orchestrator.py:371-383 | after any history of calls, under the condition of `Histories.OverHasNoLiveChild`, a task that is over leaves its owner without claims and counts |
| `TaskService.OneCall` | device_tui/application/tasking/task_service.py:797-826 | a call on one task takes the history of every followed task one step further: its own by the step of the call, the others' by being left alone |
| `TaskService.TaskService.Create` | device_tui/application/tasking/task_service.py:733-770 | keeps the plan if and only if the task can be created; a task on a plan without groups and with a new owner starts its history |
| `TaskService.TaskService.Execute` | device_tui/application/tasking/task_service.py:707-709 | executes the kept plan; all histories go on and still lead to what their tasks look like |
| `TaskService.TaskService.Pause` | device_tui/application/tasking/task_service.py:812-815 | the pausing step; all histories go on |
| `TaskService.TaskService.Cancel` | device_tui/application/tasking/task_service.py:823-826 | the cancelling step; all histories go on |
| `TaskService.TaskService.Resume` | device_tui/application/tasking/task_service.py:817-821 | the resuming step, or the restarting step of the kept plan; all histories go on |
| `TaskService.TaskService.ApplyDecision` | device_tui/application/tasking/task_service.py:883-912 | the deciding step; all histories go on |
| `TaskService.FollowedIsSingle` | device_tui/application/tasking/task_service.py:797-826 | after any calls on any tasks, a followed task has at most one live child and none forgotten, under the condition of `Histories.SingleChild` |
| `TaskService.FollowedOwnsNothing` | device_tui/application/tasking/task_service.py:797-826 | after any calls on any tasks, a followed task that is over leaves its owner without claims and counts, under the condition of `Histories.OverHasNoLiveChild` |
| `Transfers.AlwaysSafe` | device_tui/application/transfer_queue.py:16-153 | whatever steps a session goes through, in whatever order, it is safe after each: exact queue, every open operation cancellable, transfers awaited, worker awake, first in first out |
| `Transfers.AtMostOneTransfer` | device_tui/application/transfer_queue.py:40-96 | a session has at most one transfer, and its worker waits for it |
| `Transfers.StartsInOrder` | device_tui/application/transfer_queue.py:16-96 | operations start in the order in which they were enqueued, ahead of all that still wait behind them |
| `Transfers.PositionsExact` | device_tui/application/transfer_queue.py:142-153 | the positions of the waiting operations are exactly 1 to n, in queue order, each taken once |
| `Transfers.NoLostWakeup` | device_tui/application/transfer_queue.py:28-96 | a queue that is not empty and not paused has a worker that is about to run or waits for an existing transfer |
| `Transfers.WorkerStarts` | device_tui/application/transfer_queue.py:40-96 | the worker starts the first operation whose session is connected and fails those before it; with none it leaves an empty queue |
| `Transfers.TurnThere` | device_tui/application/transfer_queue.py:28-96 | as long as a session has a worker, its worker can go on or the transfer it waits for can end, whatever the outside answers |
| `Transfers.TurnSpends` | device_tui/application/transfer_queue.py:16-153 | each such turn brings the session nearer to its end, and only new operations and resuming lead away from it, by four and by one |
| `Transfers.TurnsAreBounded` | device_tui/application/transfer_queue.py:16-153 | in any sequence of steps there are at most four turns for each new operation and one for each resuming, besides those a session starts with |
| `Transfers.WithoutTurnsAllIsOver` | device_tui/application/transfer_queue.py:28-96 | after any sequence of steps that leaves no worker, the queue is empty or paused, no transfer runs, and whatever no longer waits was started or dropped and is over, except what crashed |
| `Transfers.CancelTakesEffect` | device_tui/application/operations.py:275-295 | cancelling makes the operation over at once and changes no other status |
| `Transfers.CancelSessionIsSafe` | device_tui/application/transfers.py:378-389 | cancelling a session empties its queue and leaves it safe, in whatever order its operations are cancelled |
| `TransferService.OperationManager.Create` | device_tui/application/operations.py:102-154 | a new queued record |
| `TransferService.OperationManager.Update` | device_tui/application/operations.py:175-263 | replaces a record; one with a final status loses its canceller |
| `TransferService.OperationManager.RegisterCanceller` | device_tui/application/operations.py:265-273 | ignored for a record with a final status |
| `TransferService.TransferQueue.Enqueue` | device_tui/application/transfer_queue.py:16-26 | refused if the session is not connected; otherwise this session makes the enqueue step and no other session changes |
| `TransferService.TransferQueue.RunWorker` | device_tui/application/transfer_queue.py:40-96 | the worker's turn is the worker step of this session alone |
| `TransferService.TransferQueue.Finish` | device_tui/application/transfer_queue.py:231-262 | the end of a transfer is the finish step of its session alone |
| `TransferService.TransferQueue.RefreshQueuePositions` | device_tui/application/transfer_queue.py:142-153 | renumbers the queued operations of this session alone |
| `TransferService.TransferQueue.EnsureWorker` | device_tui/application/transfer_queue.py:28-38 | registers a worker exactly for a queue that may go on and has none |
| `TransferService.TransferQueue.PauseQueueForTakeover` | device_tui/application/transfer_queue.py:131-140 | pauses the queue and puts its queued operations on hold |
| `TransferService.TransferQueue.CancelQueued` | device_tui/application/transfer_queue.py:98-107 | takes the operation out of the queue, cancels it and renumbers the rest |
| `TransferService.TransferQueue.CancelActive` | device_tui/application/transfer_queue.py:109-129 | asks the running transfer to stop and records it as cancelled, pausing the queue on request |
| `TransferService.TransferQueue.Cancel` | device_tui/application/operations.py:275-295 | does what is registered for the operation: the cancel step of its session alone |
| `TransferService.TransferQueue.TakeOver` | device_tui/application/transfer_queue.py:109-140 | the takeover step of the session alone |
| `TransferService.TransferQueue.ResumeQueue` | device_tui/application/transfers.py:356-373 | refused if the session is not connected; otherwise the resume step of this session alone |
| `TransferService.TransferQueue.CancelSession` | device_tui/application/transfers.py:378-389 | cancels, in some order, exactly what runs or waits in the session, and lifts its pause |
| `TransferService.OpChanges` | device_tui/application/operations.py:175-263 | changing one operation changes its session's part of the tables and leaves every other session's part as it was |
| `Cleanup.ProtectedPackagePaths` | device_tui/domain/package_upgrade.py:150-167 | exactly the paths and names of the startup packages, of the new package, and the names given, without the empty one |
| `Cleanup.SortCandidates` | device_tui/domain/package_upgrade.py:140 | a permutation of the candidates, larger files first and equal sizes by name |
| `Cleanup.GreedyIsOptimal` | device_tui/domain/package_upgrade.py:141-147 | if any selection of candidates reaches the target, the greedy one does, and no sufficient selection has fewer files |
| `Cleanup.LargestAreBest` | device_tui/domain/package_upgrade.py:140-146 | no selection of m files is larger than the m largest |
| `Cleanup.BuildCleanupPlan` | device_tui/domain/package_upgrade.py:106-147 | deletes only files that may be deleted; reaches the target if and only if some selection can, with as few files as possible; nothing if there is enough space, otherwise the front of the sorted candidates |
| `Cleanup.DeletedIsUnprotected` | device_tui/domain/package_upgrade.py:170-181 | a deleted file is none of the startup packages by path or name, not the new package, and none of the names given |
| `Deadlines.SecondsUntilWatchdog` | device_tui/framework/supervisor.py:118-147 | the least time left over all deadlines, not below zero, and a quarter of a second without any |
| `Deadlines.IncidentIsPassedDeadline` | device_tui/framework/watchdog.py:24-68 | for a reachable device the watchdog reports an incident if and only if one of the deadlines the supervisor looks at has passed |
| `Deadlines.NeverSleepsPast` | device_tui/framework/supervisor.py:63-74 | no incident arises before the calculated time is over, whatever the stamps are |
| `Deadlines.CalculationIsExact` | device_tui/framework/supervisor.py:118-147 | an incident is reported after s seconds if and only if s is at least the calculated time, for all s, exactly when a nearest deadline is counted from a readable stamp that is not in the future |
| `Deadlines.UncountedIsMissed` | device_tui/framework/supervisor.py:118-147 | for every limit counted from an absent, unreadable or future stamp there is no incident yet when the calculated time is over |
| `Deadlines.Supervise` | device_tui/framework/supervisor.py:35-115 | the polling loop lets the handler end if no incident comes up before, and otherwise cuts it off at the very first moment of an incident |
| `Preparation.Execute` | device_tui/framework/activity_executor.py:74-168 | leaves a record that is possible for the registry and agrees with every answer of the world; terminates for any registry |
| `Preparation.ExecutionIsDetermined` | device_tui/framework/activity_executor.py:74-248 | the registry and the answers of the world leave only one such record |
| `Preparation.CheckPrecondition` | device_tui/framework/activity_executor.py:170-248 | one guard: missing probe, first answer, preparation within the depth limit, second answer |
| `Preparation.HandlerCallsBounded` | device_tui/framework/activity_executor.py:74-248 | at most 1 + g + g^2 + g^3 handlers run, with at most g guards in a definition, cyclic preparations included |
| `Preparation.ReplayIsEvents` | device_tui/framework/activity_executor.py:74-248 | a record agrees with the world exactly if the world gives its answers and endings in the order in which the execution asks for them |
| `Preparation.PossibleIsReal` | device_tui/framework/activity_executor.py:74-248 | a record is possible if and only if in some world it is the one result of the execution |
| `Preparation.BoundIsAttained` | device_tui/framework/activity_executor.py:205-230 | for every g some registry and some world make the execution run exactly that many handlers |
| `Preparation.WithinIsPossible` | device_tui/framework/activity_executor.py:206-230 | preparations nest at most three levels deep |
| `Preparation.HandlerRunsGuarded` | device_tui/framework/activity_executor.py:170-248 | wherever a handler runs, each guard of its activity matched at the first probe, or after a preparation that succeeded |
| `Expressions.ValidatedIsSupported` | device_tui/framework/expression.py:78-182 | evaluating a validated tree never comes upon unsupported syntax |
| `Expressions.EvaluateTree` | device_tui/framework/expression.py:131-182 | the evaluator's loops over connectives and comparisons compute the recursive meaning, with the same short cuts |
| `Expressions.ClearSplits` | device_tui/framework/expression.py:36-48 | after m names have been made, the next n are free exactly if all m + n were free before: names with different numbers differ |
| `Expressions.BindFits` | device_tui/framework/expression.py:33-50 | binding succeeds if and only if every reference resolves; it then makes a new name for each reference if and only if none of these names is taken, and in that case overwrites nothing |
| `Expressions.TakenNameIsShared` | device_tui/framework/expression.py:36-48 | from a name that is taken on, all references get that name, the environment no longer grows, and the name has the value of the last reference |
| `Expressions.BoundMeansSame` | device_tui/framework/expression.py:33-50 | the bound tree means in the extended environment what the tree with references means in the original one |
| `Expressions.BindKeepsValidated` | device_tui/framework/expression.py:66-75 | the bound tree is accepted by validation if and only if the tree before binding is |
| `Expressions.RefusedExactly` | device_tui/framework/expression.py:66-75 | in any environment an expression is refused as not supported exactly if all references resolve and the tree is not within the supported syntax |
| `Expressions.BindingPreservesMeaning` | device_tui/framework/expression.py:66-75 | if the names to be made are neither keys nor identifiers of the tree, then binding, validating and evaluating equals validating and evaluating directly if and only if every reference resolves or the latter fails; an unresolved reference always fails the former |
| `Expressions.TakenNameDecides` | device_tui/framework/expression.py:66-75 | if the first name to be made is taken, the result is that of the tree with this name for all references, with the value of the last |
| `Expressions.UnreachedReferenceFails` | device_tui/framework/expression.py:66-75 | an unresolved reference behind a false conjunct: binding fails, direct evaluation gives false |
| `Expressions.BindingDecides` | device_tui/framework/expression.py:33-75 | for every environment in which all references resolve: the result is that of the tree whose k-th reference has the k-th name, or the first name that is taken if that comes before, with the values entered under these names in turn |
| `Expressions.CollidingKeyChangesMeaning` | device_tui/framework/expression.py:36-48 | an environment with such a key and an expression for which this is not the value of direct evaluation |

## Left out

- Text: ids are compared as they are, without trimming; regular expressions, case folding and path normalisation are parameters, references inside string constants and the limits on expression length and node count are not modelled.
- Stores and restarts: loading runs, tasks and operations from disk, the scan of the orchestrator's constructor and `recover_inflight` (which applies `mark_interrupted` to each stored run) are not part of this model.
- The public `WorkflowRuntime.reconcile`, which has no guard on the status of the run.
- Runtime.WorkflowRuntime.Tick: each call on a run is atomic; a cancel or pause that arrives while a handler runs, and is overwritten when the tick saves, is not modelled.
- Runtime.WorkflowRuntime.RegisterDefinition: requires that no live run uses another definition under the same id and version; replacing a definition in use is not modelled.
- Runtime.WorkflowRuntime.Start: requires that a run with the same id, if there is one, has ended. The program would replace a live run and overwrite its lease; `Holdings.AcquireConserves` says exactly when that breaks the counts.
- Runtime.WorkflowRuntime.RunUntilBlocked: requires a drive that ends; `Runtime.AcyclicDriveEnds` gives a sufficient condition. Exceptions raised by handlers and providers inside a drive appear as failed actions only.
- Orchestrator.TaskOrchestrator.Start: requires that a task with the same id, if there is one, is over, for the same reason; a caller's own child run id is not modelled.
- Orchestrator.TaskOrchestrator.RunBatch: branches interleave at attempts, not at the ticks of their drives, and all of them stop once one raises; branches that outlive the exception are not modelled.
- Orchestrator.TaskOrchestrator.ActiveChild: which of several live children is taken is left open; the program takes the one recorded last.
- Orchestrator.TaskOrchestrator.Execute: the values of outputs, contexts and inputs, interpolation, and the operators of conditions are outside; only keys, conditions as answers, and success or failure of preparing a node are modelled. New child ids are assumed not to be in use, and a caller's own child run id is not modelled. The further key of the outputs under which a node that sets a variable records its value (`_record_variable_output`) is not modelled either.
- Histories.SingleChild: the histories are those of plans without parallel groups. Which answers the condition language can express is outside: the answers range over all functions of the node and the keys of the outputs.
- TaskService.OneCall: histories are kept for tasks on plans without groups whose owner no other task shares; a task that comes to share its owner with a new one is followed no longer.
- TaskService.TaskService.ApplyDecision: how an action is matched with an option is not modelled; projecting records and the background jobs that execute a plan after a call are left out, so that a client asks for the execution itself.
- Orchestrator.OverTaskOwnsNothing: says nothing about other tasks that share the owner's name, which `Exclusive` excludes.
- The task status "unknown", deleting and listing tasks, and running without a resource coordinator.
- Random identifiers are serial numbers that never repeat; times are integers, or reals where deadlines are concerned; time stamps without a zone are not modelled.
- Transfers.Finish: the bodies of transfers are steps that end completed, failed, cancelled, or by an unhandled exception; progress, speed and remaining time, the stopping of an idle service, retries and clearing the history are not modelled.
- Preparation.Execute: verification after a handler is part of the handler's outcome, and reported events are not modelled.
- Deadlines.Supervise: no events arrive while the supervisor sleeps, each wait takes exactly the calculated time, and the device stays reachable; cancelling the handler is taken to succeed.
- User interface, transports, credentials, plugins, planning and knowledge search.
