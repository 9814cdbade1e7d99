# Verified model of the agent runtime

A Dafny model of the state machines at the centre of the runtime, with proofs about all their runs:
the two task schedulers, the retry and fallback protocol of the daemon, the incident-repair workflow
and the plans it works off, the resource leases, the message router and the context manager.

`dafny verify dfyconfig.toml` checks everything.

## How it is built

Components that change state in place have four layers.

* A `...Spec` module holds the state as a value and one function per operation. Exceptions are
  results: `Result` for the schedulers (a rejected call, or a forbidden status transition), a final
  place or node for coroutines and workflow nodes that raise.
* A `...Runs` or `...Theorems` module defines runs, as sequences of states linked by operations, and
  proves invariants and theorems about every state of every run.
* The modules named `...Adds`, `...Ends`, `...Dispatch`, `...Steps`, `...Verdict`, `...Tables` and
  `...Leases` say for every run what the operations mean, from what was called and answered, without
  naming the functions that specify them.
* A class (`KernelScheduler`, `DagScheduler`, `ResourceMonitor`, `MessageRouter`, `ContextManager`)
  has the fields and loops of the original. Each method is proved to take the fields from the old
  state to the state its specification function gives.
  On objects whose state satisfies the invariant of runs (`InRun`, `Conserved`, `Tracks`, `InOrder`)
  the methods keep it, and those of the schedulers say when they ask for a forbidden transition.

The daemon's attempt protocol, the router's coroutines and the workflow are transition systems: a
step is the code between two suspension points (or one workflow node), and everything else may
happen in between. What the outside answers (providers, patch integration, resource probes, socket
writes, timers, result messages, the order in which a Python set is walked, generated ids, clock
readings) is an arbitrary parameter of the step.

| modules | component |
|---|---|
| `Graphs` | paths, reachability, cycles |
| `Tasks`, `TaskGraph`, `Additions` | task status table, failure modes, the dependency graph both schedulers grow, when a dependency may be added |
| `KernelSpec`, `KernelRuns`, `KernelGrowth`, `KernelOrder`, `KernelTheorems`, `Kernel` | queue scheduler |
| `KernelAdds`, `KernelDispatch`, `KernelEnds`, `KernelReady` | what each of its operations does to each task and each queue |
| `KernelStranded`, `KernelFailed`, `KernelLate`, `KernelTimeout`, `KernelAfter` | its corners: refusals without a reason, which queue failed tasks are in, tasks before their dependencies, updates between two attempts and what follows them |
| `DagSpec`, `DagCascade`, `DagRuns`, `DagFailures`, `DagSort`, `DagRounds`, `DagTheorems`, `Dag` | DAG scheduler |
| `DagEnds`, `DagSteps` | what each of its operations does to each task |
| `DagStale`, `DagReopened`, `DagLate` | its corners: a wrong order, updates between two attempts, tasks before their dependencies |
| `CycleCheck`, `CoderPlan`, `PlanValidator` | plan checks and the coder loop |
| `Workflow`, `WorkflowRuns`, `WorkflowVerdict` | incident-repair graph |
| `Attempts`, `AttemptRuns`, `AttemptVerdict` | attempts, retries, fallback, late results |
| `ResourceSpec`, `ResourceRuns`, `ResourceLeases`, `Resources` | leases |
| `RouterSpec`, `RouterRuns`, `RouterTables`, `Router` | messages |
| `ContextSpec`, `ContextRuns`, `ContextSteps`, `Contexts` | contexts |

## What the runs assume

* Scheduler runs: a task is enqueued once, under a fresh id, after its dependencies and not depending
  on itself; only tasks the daemon works on complete or fail. Meanwhile the daemon sets their status
  to TIMEOUT and back to RUNNING. `add_dependencies`, `dispatch_ready` and `dequeue` are called with
  any arguments at any time. Cancelling, `block_task` and `wake_blocked` are not part of the runs.
  `EnqueueKeepsIff` shows that the order of enqueueing is needed, and `LateDependencyIsNeverMet` what
  happens otherwise.
* A run ends with the first call that asks for a forbidden transition. `ForbiddenTransitionIff`, one for
  each scheduler, says exactly which calls do. For the queue scheduler `KernelAfter` follows the runs
  further: the endpoint answers such a call with 409 and the scheduler goes on with the edges linked
  (aruntime/daemon/main.py:1286-1292). These runs end with a failure that is to fail, over such an edge,
  a task that runs or has succeeded; `FailRaisesIff` and `FailsWhatRuns` say what happens then.
* Deadlock freedom of the queue scheduler needs refusals of the resource checker to carry a reason.
  `StuckIsDoneIff` is the exact condition for refusals of any kind.
* Workflow: a successful integration was made on the commit it was asked for and yields a non-empty
  commit. Only soundness of success needs this; absorption of failure, the step bound and the repair
  bound hold for arbitrary answers.
* Attempts: the agent is registered, no deadline has expired, nobody cancels the task meanwhile, and
  bookkeeping calls (trace, store, worker restarts) do not raise. Nobody else writes the status: a
  scheduler does so only if the task was given a dependency between two attempts. The timer of `wait_for` may fire
  after the result has been set, as it can in Python 3.12.
* Leases: amounts are not negative in `Conservation`. `UsageIsExactIff` covers any amounts.
* Router: message ids identify messages and a message is acknowledged by its addressee. `AckIsExact`
  says what any other ack does.
* Contexts: no expiry by age.

## Where code and description differ

* The docstring of the DAG scheduler's `dequeue` asks for status READY; the code looks only at open
  dependencies (aruntime/scheduler/dag.py:67-85). `FailedNeverDequeued` holds because a dependent
  failed by the cascade keeps the failed dependency open.
* A degrade run whose last attempt timed out asks for TIMEOUT to SUCCESS, which the status table
  forbids, and ends FAILED (aruntime/daemon/main.py:1941-1942, 1972-1973, 2002). `Verdict`,
  `OnlyDegradeIsForbidden` and `DegradeEndsFailed` state it.
* A coder that reports completion without a patch is marked complete and then fails the run at
  integration (applications/incident_repair/nodes/coder.py:52-62, nodes/integrate.py:8-10).
  `CoderTurn` says exactly which turns of the coder survive.
* A dependent failed over a fail-closed edge is put into the failed queue and taken out again
  (aruntime/scheduler/kernel.py:249-254, 292-295). `FailedQueueIsExact` says which failed tasks are
  in the queue, `FailClosedLeavesAllQueues` gives the run.
* A refusal with an empty reason leaves a task that is never woken (aruntime/scheduler/kernel.py:154-156,
  189-200). `OnlyAddDependenciesFrees` and `AddDependenciesFrees` say what frees it.
* Compressing a compressed context drops the important keys the first compression kept, unless they
  were written again in between (aruntime/context/manager.py:334-358). `SecondCompressionKeepsIff` and
  `GoalIsLost` state it.
* After a completion the topological sort counts open dependencies but decrements for all recorded
  dependents, and can return a wrong order (aruntime/scheduler/dag.py:149-162). `RoundsDecide` says when
  it is right and when it is wrong whatever the order of the tables, `ReturnedIff` which orders can come
  out, and `StaleRecordsMislead` and `OtherTableIsRight` show a graph on which the table decides.
* The guard of `add_dependencies` does not list TIMEOUT, the status of a running task between two
  attempts (aruntime/daemon/main.py:1776, aruntime/scheduler/kernel.py:78, aruntime/scheduler/dag.py:188).
  In the queue scheduler the call then raises after it has linked the edges; `ForbiddenTransitionIff` and
  `UpdateBetweenAttemptsRaises` state it. In the DAG scheduler it is accepted, and completing or failing
  the new dependency can raise, or make a task READY that has failed; `ForbiddenTransitionIff`,
  `LateCompletionRaises`, `FailureRaisesToo`, `FailsWhatSucceeded`, `FailedRevivesIff` and
  `FailedIsRevived` state it.
* A dependency enqueued after the task that declares it is never met
  (aruntime/scheduler/kernel.py:59-61, aruntime/scheduler/dag.py:50-52).
* Ages of tasks created after the clock reading are cut off at zero, so that the priority order can
  change with time (aruntime/scheduler/kernel.py:319-321). `OrderIgnoresClockIff` says when it does
  not.

## Model

| member | source | states |
|---|---|---|
| `KernelTheorems.DeadlockFreedom` | aruntime/scheduler/kernel.py:55-228 | in every reachable state with nothing ready, running or failed and no waiting task blocked for resources, nothing waits and every task ever enqueued has completed |
| `KernelTheorems.WaitingIsBehindFailure` | aruntime/scheduler/kernel.py:55-260 | whatever has failed: with nothing ready, running or blocked for resources, every waiting task is reachable from a failed one |
| `KernelStranded.SilentRefusalStrands` | aruntime/scheduler/kernel.py:154-156 | enqueueing one new task and dispatching it against a refusal with an empty reason is a run to a stuck state in which it waits |
| `KernelStranded.StuckIsDoneIff` | aruntime/scheduler/kernel.py:134-228 | with refusals of any kind, a stuck state without failures has nothing waiting exactly if every waiting task has something open |
| `KernelStranded.OnlyAddDependenciesFrees` | aruntime/scheduler/kernel.py:55-260 | a silently refused task stays so through every run without an add_dependencies call on it |
| `KernelStranded.AddDependenciesFrees` | aruntime/scheduler/kernel.py:101-111 | an accepted add_dependencies call on it ends that |
| `KernelStranded.EmptyUpdateFrees` | aruntime/scheduler/kernel.py:73-111 | a call with no dependency is accepted and makes it ready |
| `KernelTheorems.QueueStatusAgreement` | aruntime/scheduler/kernel.py:55-260 | queues duplicate-free and pairwise disjoint, status names the queue, RUNNING and TIMEOUT the running table, ready means READY with nothing open, in every reachable state; which failed tasks are queued is `FailedQueueIsExact` |
| `KernelFailed.FailedQueueIsExact` | aruntime/scheduler/kernel.py:230-295 | in every reachable state a task is in the failed queue exactly if it is FAILED with nothing open, and in no queue exactly if it is FAILED with something open |
| `KernelFailed.FailClosedLeavesAllQueues` | aruntime/scheduler/kernel.py:249-254 | the run in which a task fails and its fail-closed dependent ends FAILED in no queue |
| `KernelTheorems.ForbiddenTransitionIff` | aruntime/core/models.py:196-241 | whatever comes next in a run, it asks for a transition outside the table exactly if it is an add_dependencies call on a task in TIMEOUT that passes the other checks |
| `Tasks.EnteredFrom` | aruntime/core/models.py:196-217 | the transition table read the other way round: from where each status can be entered |
| `KernelTheorems.TimeoutRaises` | aruntime/scheduler/kernel.py:78-111 | such a call raises TIMEOUT to READY or PENDING, by whether anything is open once the edges are linked |
| `KernelTimeout.UpdateBetweenAttemptsRaises` | aruntime/scheduler/kernel.py:73-111 | the run that enqueues and dispatches a task, lets its attempt time out and enqueues another; making the first depend on the second raises and leaves the edge, which breaks the invariant |
| `KernelAfter.HalfLinkedKeeps` | aruntime/scheduler/kernel.py:91-111 | after the raise all of the invariant holds but for what the task it was about has open |
| `KernelAfter.OnRunKeeps` | aruntime/daemon/main.py:1277-1293 | in runs that go on after such answers the invariant holds in every state, up to what tasks have open that were given dependencies between attempts |
| `KernelAfter.AgreementGoesOn` | aruntime/scheduler/kernel.py:55-260 | in these runs queues and statuses agree, ready tasks have nothing open and the graph is acyclic |
| `KernelAfter.DispatchSafetyGoesOn` | aruntime/scheduler/kernel.py:134-177 | in these runs tasks are handed out with every dependency completed or waived |
| `KernelAfter.NoDeadlockGoesOn` | aruntime/scheduler/kernel.py:55-260 | in these runs whoever waits while nothing is ready, running or blocked for resources is behind a failed task, and without failures everything has completed |
| `KernelAfter.ForbiddenGoesOn` | aruntime/core/models.py:196-241 | at any point of these runs an operation asks for a forbidden transition exactly if it is an update that misses TIMEOUT, or a failure that is to fail a task that has succeeded |
| `KernelAfter.FailRaisesIff` | aruntime/scheduler/kernel.py:230-260 | the latter for one failure and any order of the dependents |
| `KernelAfter.FailsWhatRuns` | aruntime/scheduler/kernel.py:249-254 | a failure that is to fail a running task leaves it FAILED in the running table |
| `KernelAfter.FailureRaisesLater` | aruntime/scheduler/kernel.py:230-260 | the run in which the task is tried again and succeeds, and the failure of its new dependency asks for SUCCESS to FAILED |
| `KernelAfter.RunIsOnRun` | aruntime/scheduler/kernel.py:55-260 | every run is one of these |
| `KernelRuns.WriteKeeps` | aruntime/daemon/main.py:1776-1860 | the daemon's writes between RUNNING and TIMEOUT keep the invariant |
| `KernelTheorems.DispatchSafety` | aruntime/scheduler/kernel.py:134-177 | each task handed out has every dependency, declared or added later, completed or failed over an edge whose effective mode waives it |
| `KernelEnds.FailureByPolicy` | aruntime/scheduler/kernel.py:230-260 | at any failure of any run, for every task that had the failed one open: fail-closed makes it FAILED and takes it out of every queue; open, degrade and fallback take the failed task off what it waits for, and a waiting task that waits for nothing else is READY and queued; retry or no policy leaves it as it was. The policy is the edge's or, if it has none, the failed task's own. Every other task is as it was |
| `KernelEnds.CompletionLetsGo` | aruntime/scheduler/kernel.py:208-228 | at any completion of any run each task that had the completed one open loses it, and if it waits for nothing else is READY and queued; every other task is as it was |
| `KernelEnds.DaemonWrites` | aruntime/daemon/main.py:1776-1864 | what the daemon writes between two attempts changes the status of the one task and nothing else |
| `KernelTheorems.OnlineAcyclicity` | aruntime/scheduler/kernel.py:73-126 | after any run an accepted batch leaves the graph acyclic, and a rejection for a cycle names a dependency that would close one |
| `KernelAdds.AddDependenciesIff` | aruntime/scheduler/kernel.py:73-126 | after any run a call is accepted exactly if the task is known, its status allows it, it is not among its own new dependencies, and each of them is known and closes no cycle; any other call is refused for the first of these that fails, in list order. An accepted one opens the dependencies not completed, appends the new ones to the declared list and makes the task READY or PENDING; nobody else changes |
| `KernelAdds.EnqueueAdds` | aruntime/scheduler/kernel.py:55-71 | any enqueue of any run: the task waits for what has not completed and is READY in the ready queue or PENDING in the waiting queue; the others only learn of their dependent |
| `Additions.FirstBadMeans` | aruntime/scheduler/kernel.py:81-90 | the search for a bad dependency finds the first one that is unknown or would close a cycle, repetitions left out, and nothing exactly if there is none |
| `Additions.MayAddOrRefused` | aruntime/scheduler/kernel.py:73-90 | no call is both in order and refused |
| `KernelTheorems.OvertakingIsBounded` | aruntime/scheduler/kernel.py:134-177 | at any dispatch of any run under the priority policy, when a task is handed out every other task of the ready queue has been handed out or refused before in the call, or is, if older, so by less than 30 seconds per point of priority as far as the clock has got, whatever becomes of it later |
| `KernelDispatch.DispatchFollowsTheAnswers` | aruntime/scheduler/kernel.py:134-200 | at any dispatch of any run: looked at are the ready tasks or, if there are none, the waiting ones with nothing open and a reason for which waking is granted, in the order of the policy and stably; all of them, or as many as it takes to reach the limit. Those with an agent and a grant are handed out and RUNNING, the others BLOCKED for the reason given, the rest stays ready, and a task asked about in vain waits with the new reason; nobody else changes |
| `KernelDispatch.UnlimitedDispatch` | aruntime/scheduler/kernel.py:134-200 | with no limit the list returned holds exactly the candidates with an agent and a grant: of an idle scheduler the waiting tasks with nothing open and a reason that may be woken, of a busy one the ready tasks and nobody woken |
| `KernelDispatch.SortCompares` | aruntime/scheduler/kernel.py:300-321 | the three kinds of sort key in words: older first; higher aged priority, thirty seconds to the point; lower score and then aged priority |
| `KernelDispatch.SortIsStable` | aruntime/scheduler/kernel.py:297-298 | sorting keeps the order of two tasks unless the later one goes before the earlier |
| `KernelReady.EnqueueJoins` | aruntime/scheduler/kernel.py:55-71 | any enqueue of any run: a task with nothing open joins the ready queue in line, by the clock of its insertion, behind its equals; any other joins the end of the waiting queue |
| `KernelReady.AddDependenciesJoins` | aruntime/scheduler/kernel.py:101-111 | the same for an accepted add_dependencies, after the task has left its queue |
| `KernelReady.EndsLine` | aruntime/scheduler/kernel.py:208-260 | after any completion or failure of any run the ready queue is as it was, or in line by the clock of the last insertion |
| `KernelReady.EndsKeepOrder` | aruntime/scheduler/kernel.py:208-260 | at any completion or failure of any run nobody joins the waiting queue and those that stay keep their order |
| `KernelReady.RefusedQueueUp` | aruntime/scheduler/kernel.py:134-200 | at any dispatch of any run those that wait and are no candidates keep their order, and behind them stand the refused candidates in the order of their turns |
| `KernelTheorems.RunKeeps` | aruntime/scheduler/kernel.py:55-260 | the invariant of queues, statuses, open dependencies and edges holds in every reachable state |
| `KernelOrder.StableSortSorts` | aruntime/scheduler/kernel.py:297-317 | the ready sort orders by the policy's key |
| `KernelOrder.OrderIgnoresClock` | aruntime/scheduler/kernel.py:300-321 | for two tasks created by the reading, or created together, the priority order is a comparison without a clock |
| `KernelOrder.OrderIgnoresClockIff` | aruntime/scheduler/kernel.py:300-321 | for an older and a younger task, the order at a reading is the clock-free one for all priorities exactly if the seen and the real age difference hold the same number of whole 30 seconds |
| `KernelOrder.FutureTasksDrift` | aruntime/scheduler/kernel.py:319-321 | two tasks, one created after the first reading, that the sort orders one way at that reading and the other way a minute later |
| `KernelOrder.DispatchTakesPrefix` | aruntime/scheduler/kernel.py:140-177 | the dispatch loop consumes a prefix of the sorted queue, hands out tasks in its order, and whoever is consumed and not handed out was refused |
| `KernelOrder.BoundedOvertaking` | aruntime/scheduler/kernel.py:134-177 | the same for one call from any state with a duplicate-free queue |
| `KernelRuns.CompleteKeeps` | aruntime/scheduler/kernel.py:208-228 | completing a RUNNING task never raises and keeps the invariant |
| `KernelRuns.FailKeeps` | aruntime/scheduler/kernel.py:230-260 | failing a running task, RUNNING or TIMEOUT, never raises and keeps the invariant, whatever the modes of its edges, fail-closed ones to tasks that were given it as a dependency between attempts excepted |
| `KernelRuns.DispatchKeeps` | aruntime/scheduler/kernel.py:134-177 | dispatching keeps the invariant and hands out only tasks whose dependencies are discharged |
| `KernelGrowth.EnqueueKeeps` | aruntime/scheduler/kernel.py:55-71 | enqueueing a well-formed task never raises and keeps the invariant |
| `KernelLate.EnqueueKeepsIff` | aruntime/scheduler/kernel.py:55-71 | enqueueing a new task never raises, and keeps the invariant exactly if all its dependencies are known |
| `KernelLate.EnqueuedTooEarly` | aruntime/scheduler/kernel.py:59-61 | a dependency unknown at that moment is left open without a reverse edge |
| `KernelLate.LateDependencyIsNeverMet` | aruntime/scheduler/kernel.py:55-276 | through any later calls but wake_blocked on the task, such a dependency stays open and unrecorded and the task is never handed out, even after the dependency completes or is added again |
| `KernelLate.WakeBlockedHandsItOver` | aruntime/scheduler/kernel.py:268-276 | wake_blocked puts the task into the ready queue with the dependency open |
| `KernelGrowth.AddDependenciesKeeps` | aruntime/scheduler/kernel.py:91-111 | an accepted batch of dependencies keeps the invariant, acyclicity included |
| `Kernel.KernelScheduler.Enqueue` | aruntime/scheduler/kernel.py:55-71 | the in-place method reaches the specified state; in runs it never raises and keeps the run invariant |
| `Kernel.KernelScheduler.AddDependencies` | aruntime/scheduler/kernel.py:73-111 | accepted calls reach the specified state, complaints change nothing, and a forbidden transition leaves the edges linked; in runs that happens exactly for a task in TIMEOUT that passes the checks, and otherwise the run invariant is kept |
| `Kernel.KernelScheduler.DispatchReady` | aruntime/scheduler/kernel.py:134-177 | the loop with its two refusals reaches the specified state and result; in runs it never raises and hands out only tasks whose dependencies are discharged |
| `Kernel.KernelScheduler.WakeWaiting` | aruntime/scheduler/kernel.py:189-200 | reaches the specified state; what that is at a dispatch of a run, which tasks are woken and which keep waiting with the new reason, is `DispatchFollowsTheAnswers` |
| `Kernel.KernelScheduler.CompleteTask` | aruntime/scheduler/kernel.py:208-228 | reaches the specified state over any order of the dependents; in runs it never raises for a RUNNING task |
| `Kernel.KernelScheduler.FailTask` | aruntime/scheduler/kernel.py:230-260 | reaches the specified state over any order of the dependents; in runs it never raises for a running task, and `FailureByPolicy` says what it does to each task |
| `TaskGraph.HasDependentPath` | aruntime/scheduler/kernel.py:113-126 | terminates on every graph and is true exactly for reachable targets |
| `TaskGraph.CheckDependencies` | aruntime/scheduler/kernel.py:84-89 | finds the first dependency that is unknown or would close a cycle, checked against the old graph |
| `TaskGraph.CycleCheckExact` | aruntime/scheduler/kernel.py:84-89 | in an acyclic graph a dependency is refused exactly if recording it would close a cycle |
| `TaskGraph.AddAllGrows` | aruntime/scheduler/kernel.py:91-100 | a batch adds exactly its edges, opens those not completed and touches nothing else |
| `Graphs.AddEdgesAcyclic` | aruntime/scheduler/kernel.py:84-98 | adding any number of edges into one node that reaches none of their sources keeps a graph acyclic |
| `DagCascade.FailIsExactClosure` | aruntime/scheduler/dag.py:112-140 | the recursive failure, on any graph, newly fails exactly what is reachable over edges decided by fail-closed, the policy of the edge or else of the failing task, through tasks not failed before |
| `DagTheorems.CascadeInRuns` | aruntime/scheduler/dag.py:112-140 | the same at every failure of every run |
| `DagEnds.FailureByPolicy` | aruntime/scheduler/dag.py:112-140 | at any failure of any run that returns, for every task: who fails is FAILED; who does not loses exactly the dependencies that fail now and whose policy, the edge's or else their own, excuses it, and is READY if it is queued and waits for nothing; who had failed before is as it was, and so are the queues |
| `DagEnds.DirectDependent` | aruntime/scheduler/dag.py:119-140 | the same for a dependent of the failed task, policy by policy |
| `DagSteps.CompletionLetsGo` | aruntime/scheduler/dag.py:87-110 | at any completion of any run each task that waits for it loses it, and is READY and off the waiting list if that was all; every other task is as it was |
| `DagSteps.DequeueTakesFirst` | aruntime/scheduler/dag.py:67-85 | any dequeue of any run returns the first task of the queue that waits for nothing, takes it off queue and waiting list and sets it RUNNING; None exactly if there is none; nothing else changes |
| `DagSteps.EnqueueAdds` | aruntime/scheduler/dag.py:40-65 | any enqueue of any run appends the task to the queue, READY or PENDING by what has not completed of its dependencies, and in the second case to the waiting list |
| `DagSteps.WaitingListAgrees` | aruntime/scheduler/dag.py:40-225 | in every reachable state the waiting list names each task once, only queued tasks and every PENDING one |
| `DagEnds.DaemonWrites` | aruntime/daemon/main.py:1776-1864 | what the daemon writes between two attempts changes the status of the one task and nothing else |
| `DagTheorems.FailedNeverDequeued` | aruntime/scheduler/dag.py:67-140 | a task once failed is never returned by a later dequeue of the run |
| `DagTheorems.DequeueSafety` | aruntime/scheduler/dag.py:67-85 | a dequeued task has every dependency completed or failed over a waiving edge |
| `DagTheorems.DeadlockFreedom` | aruntime/scheduler/dag.py:67-110 | if dequeue finds nothing, nothing runs and nothing failed, everything has completed |
| `DagTheorems.WaitingIsBehindFailure` | aruntime/scheduler/dag.py:67-140 | whatever has failed: if dequeue finds nothing and nothing runs, every task that has not ended is reachable from a failed one |
| `DagTheorems.ForbiddenTransitionIff` | aruntime/core/models.py:196-241 | at any point of any run: completing a task asks for a forbidden transition exactly if it is the last dependency of one that was handed out before and has not failed; failing one exactly if, over the tasks that fall with it, it would fail one that has succeeded, or take off everything one waits for that was handed out and does not fall; nothing else does |
| `DagTheorems.NoForbiddenTransition` | aruntime/scheduler/dag.py:67-225 | in runs without an add_dependencies call on a task in TIMEOUT nothing asks for a forbidden transition, however far a cascade goes |
| `DagTheorems.FailedRevivesIff` | aruntime/scheduler/dag.py:101-110 | at any completion of any run, a FAILED task becomes READY exactly if the completed task is all it waits for, and is then outside the queue |
| `DagTheorems.FailedStaysFailed` | aruntime/scheduler/dag.py:40-225 | no other operation of a run turns a FAILED task into anything else |
| `DagReopened.LateCompletionRaises` | aruntime/scheduler/dag.py:87-110 | the run that hands out x, lets its attempt time out and makes it depend on the running d; completing d raises TIMEOUT to READY, or RUNNING to READY after the restart |
| `DagReopened.FailureRaisesToo` | aruntime/scheduler/dag.py:112-140 | in the same state, failing d over an edge that waives raises TIMEOUT to READY |
| `DagReopened.FailsWhatSucceeded` | aruntime/scheduler/dag.py:112-140 | the run in which x is tried again and succeeds, and failing d over a fail-closed edge raises SUCCESS to FAILED |
| `DagReopened.FailedIsRevived` | aruntime/scheduler/dag.py:87-110 | the run in which x fails first and completing d makes it READY outside the queue |
| `DagRuns.SucceedKeeps` | aruntime/scheduler/dag.py:87-110 | the exact condition for one completion, which otherwise keeps the invariant |
| `DagTheorems.OnlineAcyclicity` | aruntime/scheduler/dag.py:183-225 | accepted batches keep the graph acyclic, cycle rejections are justified |
| `DagSteps.AddDependenciesIff` | aruntime/scheduler/dag.py:183-225 | after any run a call is accepted exactly if it is in order, and refused for the first thing that is wrong, as in the queue scheduler; an accepted one opens the dependencies not completed, and a queued task that then waits is PENDING and on the waiting list |
| `DagLate.EnqueueKeepsIff` | aruntime/scheduler/dag.py:40-65 | enqueueing a new task never raises, and keeps the invariant exactly if all its dependencies are known |
| `DagLate.EnqueuedTooEarly` | aruntime/scheduler/dag.py:50-56 | a dependency unknown at that moment is left open without a reverse edge |
| `DagLate.LateDependencyIsNeverMet` | aruntime/scheduler/dag.py:40-225 | through any later calls and status writes it stays so and the task is never dequeued |
| `DagTheorems.SortBeforeAnyEnd` | aruntime/scheduler/dag.py:142-168 | in every run, until something ends, the sort returns a topological order, however the node table and the dependents are ordered |
| `DagFailures.BreakKeeps` | aruntime/scheduler/dag.py:112-140 | the exact condition for one failure with its whole cascade, on the state before it and for every order of the dependents; otherwise the invariant is kept |
| `DagSort.TopologicalSort` | aruntime/scheduler/dag.py:142-168 | the loop returns the list the sort function gives for the order of the node table and of the dependents; it raises exactly if some tasks stall; what it returns lists every task once, in counting order, and is topological where no waiting task has stale records; with dependencies and dependents converse it raises exactly for cycles and unrecorded dependencies |
| `DagSort.CountedIsTopological` | aruntime/scheduler/dag.py:149-162 | counting order is dependency order as long as every task that recorded a waiting one is among its open dependencies |
| `DagRounds.RoundsDecide` | aruntime/scheduler/dag.py:149-162 | for every order of the node table and of the dependents, the order returned is topological if each open dependency is taken in an earlier round than the waiting task, a round being what the round before brings to zero, and is not if one is taken in a later round |
| `DagRounds.ReturnedIff` | aruntime/scheduler/dag.py:149-162 | a listing comes out for some orders of the tables exactly if it lists every task once, in counting order, and first in, first out |
| `DagRounds.RoundsComeFirst` | aruntime/scheduler/dag.py:152-162 | every round is a prefix of the result |
| `DagStale.OtherTableIsRight` | aruntime/scheduler/dag.py:142-168 | on the graph of `StaleRecordsMislead`, with f before d in the table, the order returned is right |
| `DagStale.SameRound` | aruntime/scheduler/dag.py:149-162 | the two tasks it concerns are taken in the same round |
| `DagSort.SortFacts` | aruntime/scheduler/dag.py:142-168 | the properties of the listing, for the function of both orders |
| `DagStale.StaleRecordsMislead` | aruntime/scheduler/dag.py:142-168 | a run that enqueues d, f, e and x and completes d reaches a graph for which the loop returns [d, f, x, e] although x still waits for e |
| `DagTheorems.SortAlwaysReturns` | aruntime/scheduler/dag.py:142-168 | in every reachable state, after completions and failures too, each dependent to be decremented has an in-degree and the sort does not raise |
| `Dag.DagScheduler.Dequeue` | aruntime/scheduler/dag.py:67-85 | the in-place method reaches the specified state and result; in runs it never raises |
| `Dag.DagScheduler.CompleteTask` | aruntime/scheduler/dag.py:87-110 | reaches the specified state over any order of the dependents |
| `Dag.DagScheduler.FailTask` | aruntime/scheduler/dag.py:112-140 | the recursive method terminates and reaches the specified state, which `DagEnds.FailureByPolicy` describes |
| `Dag.DagScheduler.ReportSuccess` | aruntime/scheduler/dag.py:87-110 | setting SUCCESS and completing a RUNNING task returns exactly if it is not the last dependency of a task handed out before, and then keeps the run invariant |
| `Dag.DagScheduler.ReportFailure` | aruntime/scheduler/dag.py:112-140 | setting FAILED and failing, cascade included, returns exactly if the condition of `BreakKeeps` does not hold, and then keeps the run invariant |
| `Dag.DagScheduler.AddDependencies` | aruntime/scheduler/dag.py:183-210 | accepted calls reach the specified state, rejected ones change nothing; in runs no transition is forbidden |
| `CycleCheck.IsAcyclic` | applications/incident_repair/routing.py:39-57 | the depth-first search with its visiting and visited sets accepts exactly the acyclic graphs |
| `CoderPlan.ValidateCoderPlan` | applications/incident_repair/routing.py:20-36 | raises exactly for plans without coders, with a dependency that is no coder, or with a cycle, and for something that is wrong with the plan |
| `CoderPlan.LastCoderWins` | applications/incident_repair/routing.py:39-57 | the cycle check looks at each coder id once, with the dependencies of its last coder entry |
| `CoderPlan.ReadyExists` | applications/incident_repair/routing.py:60-78 | for an accepted plan and any completed set, a remaining coder task implies a ready one |
| `CoderPlan.NextFacts` | applications/incident_repair/routing.py:69-78 | the chosen task is an unfinished coder whose dependencies are all completed |
| `WorkflowVerdict.NextIsPicked` | applications/incident_repair/routing.py:69-78 | of the unfinished coders whose dependencies are completed it is the one with the least id, and of several with that id the first of the plan |
| `CoderPlan.LoopOrder` | applications/incident_repair/nodes/select_coder.py:6-25 | when every coder succeeds the loop takes one turn per distinct id, in a linear extension of the dependencies |
| `PlanValidator.ValidatePlan` | aruntime/planner/validator.py:6-56 | accepts exactly the well-formed plans, and reports only what is wrong with a plan |
| `WorkflowRuns.SuccessIsSound` | applications/incident_repair/graph.py:24-77 | reaching success means each planned coder id has one integrated patch, in dependency order; the history and the repairs form a commit chain from the base to the final commit; the last calls were a passing test and an approving review of that commit. The other direction is `VerdictIff` |
| `WorkflowVerdict.TestAndReviewDecide` | applications/incident_repair/routing.py:81-100 | at any test of any run the next node is the reviewer exactly if the test ran with code zero, the repair node exactly if it did not, given up included, and fewer repairs than allowed were made. At any review it is the success node exactly if the run has not failed and the review approves, the repair node exactly if it does not and fewer repairs were made |
| `WorkflowVerdict.OtherNodesDecide` | applications/incident_repair/graph.py:34-76 | the next node at every other node, from the answers; a selection takes the least ready id |
| `WorkflowVerdict.IntegrationDecides` | applications/incident_repair/nodes/integrate_coder.py:18-49 | an integration aborts the run exactly if the service is asked and raises |
| `WorkflowVerdict.FailedIff` | applications/incident_repair/graph.py:20-76 | at every point of every run it has failed exactly if one of its steps failed it: a list of answers, node by node |
| `WorkflowVerdict.VerdictIff` | applications/incident_repair/graph.py:20-76 | a run that has come to its end has succeeded exactly if its last review approved and no step before failed it; else it has failed |
| `WorkflowVerdict.GoodRunsSucceed` | applications/incident_repair/graph.py:20-76 | a run of an accepted plan whose every answer is good never fails, repairs or aborts, and has succeeded when it ends |
| `WorkflowVerdict.SuccessIsPossible` | applications/incident_repair/graph.py:20-76 | for every accepted plan there is such a run, and it ends with success |
| `WorkflowVerdict.CompletedIff` | applications/incident_repair/nodes/integrate_coder.py:18-49 | a coder id is completed exactly if a turn of the coder on it ended well |
| `WorkflowVerdict.StepsAreTurns` | applications/incident_repair/nodes/select_coder.py:21-25 | coder_step counts the turns of the coder |
| `WorkflowVerdict.RoundsAreRepairs` | applications/incident_repair/nodes/repair.py:8-44 | repair_round counts the visits of the repair node |
| `WorkflowVerdict.LeaksIff` | applications/incident_repair/nodes/integrate_coder.py:6-15 | the private files: what begins with .codex-home, and two logs |
| `WorkflowRuns.FailureIsAbsorbing` | applications/incident_repair/graph.py:20-77 | from any FAILED state of a run the status stays FAILED and the success node is not entered |
| `WorkflowRuns.CoderTurn` | applications/incident_repair/nodes/coder.py:43-73 | two nodes after the coder the run is neither FAILED nor aborted exactly if the coder gave a patch without private files and its integration succeeded; completion without a patch fails it |
| `WorkflowRuns.SelectionIsNeverStuck` | applications/incident_repair/nodes/select_coder.py:14-20 | the branch for no ready coder task is never taken, and leaving the loop means all coders are done |
| `WorkflowRuns.RunsAreShort` | applications/incident_repair/graph.py:66-76 | at most 3 k + 4 r + 5 node executions for k distinct coder ids and r repair rounds, whatever is answered |
| `WorkflowRuns.RepairsAreBounded` | applications/incident_repair/nodes/repair.py:8-44 | the number of repair calls is the round counter and never exceeds the maximum |
| `WorkflowRuns.RunKeeps` | applications/incident_repair/graph.py:66-76 | what holds on entry to each node, in every run with honest integrations |
| `WorkflowRuns.IntegrateCoderSucceeds` | applications/incident_repair/nodes/integrate_coder.py:18-49 | a successful integration extends history, completed ids and commit chain by the active task |
| `WorkflowRuns.IntegrateKeepsChain` | applications/incident_repair/nodes/integrate.py:6-35 | an integration appends one link to the commit chain, starting at the current commit |
| `AttemptRuns.Fencing` | aruntime/daemon/main.py:2105-2133 | a result resolves the future exactly if it carries the id the awaited future was registered under and it is still waiting |
| `AttemptRuns.OtherResultsAreIgnored` | aruntime/daemon/main.py:2105-2133 | in every reachable state a result with the id of any attempt but the latest changes nothing |
| `AttemptRuns.ResolvedAtMostOnce` | aruntime/daemon/main.py:1768-1791 | no attempt is resolved twice, and only a delivered result with the id of the latest, open attempt resolves one |
| `AttemptRuns.TimedOutNeverResolved` | aruntime/daemon/main.py:1768-1791 | an attempt that timed out is never resolved, before or after, unless its timer fired when the result had been set |
| `AttemptRuns.CompletedIsFinal` | aruntime/core/models.py:355-373 | a completed attempt is neither changed nor resolved by anything later |
| `AttemptRuns.AttemptBound` | aruntime/daemon/main.py:1853-1864 | at most max(max_retries, 0) + 1 primary attempts, in order, and one by the fallback agent |
| `AttemptRuns.CleanBeforeNext` | aruntime/daemon/main.py:1879-1892 | when an attempt is created all earlier ones are completed, the task holds no lease and no future is pending |
| `AttemptRuns.Verdict` | aruntime/daemon/main.py:1946-2027 | at the end no lease is active, every attempt is completed and SUCCESS holds exactly if an attempt succeeded, or the policy is degrade and the last attempt did not time out; by what was delivered it is `VerdictIff` |
| `AttemptVerdict.OutcomesIff` | aruntime/daemon/main.py:1766-1838 | in every run an attempt has succeeded exactly if a success delivered with its id was taken and, at a turn of the coroutine before the timer fired, found with its patch made; it has timed out exactly if the timer fired while it was awaited |
| `AttemptVerdict.ReportedFailureFails` | aruntime/daemon/main.py:1811-1829 | a failure that was taken, or a success without its patch, fails the attempt unless the timer overtakes it |
| `AttemptVerdict.VerdictIff` | aruntime/daemon/main.py:1766-2027 | a finished run is in SUCCESS exactly if a delivered success was so found for some attempt, or the policy is degrade and the timer did not fire on the last one; else FAILED |
| `AttemptVerdict.TurnsFollowAnswers` | aruntime/daemon/main.py:1712-1943 | where the coroutine goes at each turn, from the answers and what was delivered |
| `AttemptVerdict.TriesAreMade` | aruntime/daemon/main.py:1853-1943 | a finished run made attempts until one succeeded, and if none did one and one more for each retry; only the last can have succeeded |
| `AttemptVerdict.LeaseIsHeld` | aruntime/daemon/main.py:1866-1877 | while its worker may run the task holds the lease of that attempt and no other |
| `AttemptVerdict.LeaseIsDropped` | aruntime/daemon/main.py:1880-1889 | a failing attempt gives it back at once if its agent is registered |
| `AttemptRuns.OnlyDegradeIsForbidden` | aruntime/daemon/main.py:1894-1943 | the only forbidden transition ever asked for is TIMEOUT to SUCCESS at the end of a degrade run |
| `AttemptRuns.DegradeEndsFailed` | aruntime/daemon/main.py:1841-2027 | the run without retries whose one attempt times out under the degrade policy: the coroutine returns success and the task ends FAILED |
| `AttemptRuns.RunsEnd` | aruntime/daemon/main.py:1841-1943 | the coroutine makes a bounded number of moves however results arrive |
| `AttemptRuns.RunKeeps` | aruntime/daemon/main.py:1712-1838 | the invariant of place, attempts, slot, lease and status over all interleavings |
| `Attempts.AttemptIdInjective` | aruntime/core/models.py:342-344 | attempts of one task have different ids |
| `ResourceRuns.Conservation` | aruntime/resource/monitor.py:73-194 | in every reachable state with amounts that are not negative, usage is the sum over active leases and within positive quotas; slot totals are the sum of the counts and within the limit; an agent holds one lease with slots at most |
| `ResourceLeases.LeasesFollow` | aruntime/resource/monitor.py:73-158 | at any operation of any run: a request is granted exactly if it is empty, or the probes of CPU and memory it asks for say yes, what is leased and asked for stays within every positive quota, and the slots of the agent and of all stay within their limits, counted over the active leases; a refusal changes nothing; release and reclaim end exactly the lease meant |
| `ResourceRuns.ClampNeverFires` | aruntime/resource/types.py:62-63 | releasing an active lease never goes below zero, in usage or in slots |
| `ResourceRuns.ReleasedOnce` | aruntime/resource/monitor.py:111-140 | a released lease stays released in every later state and is reclaimed at most once |
| `ResourceRuns.SecondCallDoesNothing` | aruntime/resource/monitor.py:111-140 | release and reclaim after a release or reclaim change nothing |
| `ResourceRuns.AcquireKeeps` | aruntime/resource/monitor.py:73-105 | a grant or refusal keeps conservation, quotas and the one-lease rule |
| `ResourceRuns.ReleaseIsExactIff` | aruntime/resource/monitor.py:119-127 | for any amounts, release keeps usage equal to the sum exactly if no class would go below zero |
| `ResourceRuns.UsageIsExactIff` | aruntime/resource/monitor.py:73-140 | for runs with any amounts, usage is the sum over active leases all along exactly if no release asks a class for more than is in use |
| `ResourceRuns.NegativeAmountBreaks` | aruntime/resource/types.py:59-63 | with a negative amount usage and sum come apart |
| `Resources.ResourceMonitor.TakeAll` | aruntime/resource/monitor.py:92-98 | after the checks before it the slot loop cannot fail |
| `Resources.ResourceMonitor.CanAllocate` | aruntime/resource/monitor.py:146-158 | true exactly if the CPU probe allows a request for CPU, the memory probe one for memory, and usage and request together stay within every positive quota |
| `Resources.ResourceMonitor.Acquire` | aruntime/resource/monitor.py:73-105 | reaches the specified state; a refusal changes nothing |
| `Resources.ResourceMonitor.Release` | aruntime/resource/monitor.py:111-127 | reaches the specified state, a no-op on a lease that is not active |
| `Resources.ResourceMonitor.Reclaim` | aruntime/resource/monitor.py:133-140 | reaches the specified state |
| `RouterRuns.AckRequiredIsTracked` | aruntime/comm/router.py:24-90 | a message with ack_required that entered a mailbox is in every later state unacknowledged, processed by its addressee or dead |
| `RouterRuns.NothingIsLost` | aruntime/comm/router.py:24-147 | every message given to send or route is in the mailbox, carried by a coroutine, written, received, dead or processed, under every interleaving |
| `RouterRuns.RoutedArrives` | aruntime/comm/router.py:138-231 | every routed message is written, enqueued or found processed, unless a delivery still carries it |
| `RouterTables.ConnectionIff` | aruntime/comm/router.py:102-136 | in every run the connection of an agent is the writer of its latest register, unless an unregister without a writer or with that one came since, or a write to it failed |
| `RouterTables.RouteFollowsConnection` | aruntime/comm/router.py:138-147 | at any route of any run: to a connected agent a delivery to exactly that writer starts, for any other the message goes to the end of its mailbox |
| `RouterTables.SendQueues` | aruntime/comm/router.py:24-45 | at any send of any run the message goes to the end of the mailbox, unless it was processed; a full one loses its oldest message to the dead letters |
| `RouterTables.WrittenToTheAddressee` | aruntime/comm/router.py:181-231 | nothing is ever written to a connection that was not registered for the addressee |
| `RouterTables.MovesFollow` | aruntime/comm/router.py:181-231 | each move of a delivery or a replay: write, drop after a failure, try the connection the agent has now if it is another, else the mailbox |
| `RouterTables.RegisterHandsOver` | aruntime/comm/router.py:102-126 | at any register of any run the mailbox, in order, and what is unacknowledged besides go to the new connection, and the mailbox is empty |
| `RouterTables.ReceiveTakesOldest` | aruntime/comm/router.py:47-62 | at any receive of any run the oldest messages leave the mailbox, up to the limit, and those not processed are handed out in order |
| `RouterTables.AckSettles` | aruntime/comm/router.py:64-70 | at any ack of any run the message is not awaited any longer and counts as processed by the agent, and nothing else changes |
| `RouterTables.RetriesAreReplays` | aruntime/comm/router.py:72-84 | the retry count of a message is the number of replays that found it unacknowledged |
| `RouterTables.ReplayDecides` | aruntime/comm/router.py:72-90 | at any replay of any run the messages replayed as often as allowed become dead letters and the others are put back |
| `RouterRuns.ResumeEnds` | aruntime/comm/router.py:181-231 | a delivery that is resumed gets closer to its end and touches no other |
| `RouterRuns.FlightsEnd` | aruntime/comm/router.py:181-231 | over any stretch of any run the moves a delivery makes are bounded by its steps at the start less those left at the end |
| `RouterRuns.AckIsExact` | aruntime/comm/router.py:64-70 | an ack keeps a message tracked exactly if it comes from the addressee or the message was dead or processed already |
| `RouterRuns.RunKeeps` | aruntime/comm/router.py:24-231 | the invariant over all interleavings of lock sections and writes |
| `Router.MessageRouter.EnqueueLocked` | aruntime/comm/router.py:24-37 | reaches the specified state, the overflow to the dead letters included |
| `Router.MessageRouter.Receive` | aruntime/comm/router.py:47-62 | takes up to the limit and returns what is not processed, in order |
| `Router.MessageRouter.ReplayUnacked` | aruntime/comm/router.py:72-84 | counts a retry for each unacknowledged message of the agent and gives up on those over the limit |
| `Router.MessageRouter.Register` | aruntime/comm/router.py:102-119 | records the writer as the connection and empties the mailbox into the delivery queue, followed by what is unacknowledged besides; over runs that is `ConnectionIff` and `RegisterHandsOver` |
| `Router.MessageRouter.RequeueAfterSendFailure` | aruntime/comm/router.py:199-220 | offers another connection if there is one, else enqueues |
| `ContextRuns.RollbackRestores` | aruntime/context/manager.py:285-345 | k rollbacks restore exactly what the context held before the k-th latest compression not rolled back, whatever happened since |
| `ContextSteps.RecordWrites` | aruntime/context/manager.py:57-117 | at any record of any run the data are written, into the deltas of a compressed context, with a version for each readonly change; a result above the threshold is put on the stack and compressed to summaries with their labels, keys and important values, any other is kept; the version counts the parts written; no other live context changes |
| `ContextSteps.RollbackPops` | aruntime/context/manager.py:285-302 | at any rollback of any run a live context becomes what lies on top of its stack; nothing else changes, the order of use neither |
| `ContextSteps.BuildReads` | aruntime/context/manager.py:131-176 | building a context changes no context |
| `ContextRuns.CompressionKeepsReadonly` | aruntime/context/manager.py:304-345 | compression changes neither readonly values nor their histories |
| `ContextRuns.SecondCompressionKeepsIff` | aruntime/context/manager.py:334-358 | compressing a compressed context keeps an important shared key exactly if it was written since the last compression, with the value written |
| `ContextRuns.SecondCompressionKeepsPrivateIff` | aruntime/context/manager.py:335-338 | the same for the private data of each agent, with the value written |
| `ContextRuns.ImportantKeysOverRuns` | aruntime/context/manager.py:57-117 | the same at every recording of every run that compresses a compressed context, for shared and private data and with the values |
| `ContextRuns.GoalIsLost` | aruntime/context/manager.py:347-358 | the run of two recordings in which the second compression drops the goal the first kept |
| `ContextRuns.ReadonlyHistories` | aruntime/context/manager.py:91-108 | in every reachable state each readonly history is numbered 1..n, ends in the current value and repeats no neighbour |
| `ContextRuns.LiveAreRecent` | aruntime/context/manager.py:65-71 | the live contexts, in order, are the last max_contexts of all ids by their last use |
| `ContextRuns.LiveIffRecentlyUsed` | aruntime/context/manager.py:431-433 | a context is live exactly if fewer than max_contexts different ids were used since it was |
| `ContextRuns.UnusedIsNotLive` | aruntime/context/manager.py:65-71 | an id that was never used is not live |
| `ContextRuns.SharedIsRead` | aruntime/context/manager.py:76-83 | shared and readonly data recorded and not compressed away is what agents read |
| `ContextRuns.PrivateIsRead` | aruntime/context/manager.py:84-90 | private data is read by its agent and changes nothing for the others |
| `Contexts.ContextManager.RecordTaskContext` | aruntime/context/manager.py:57-117 | reaches the specified state, through the readonly loop and the eviction loop |
| `Contexts.ContextManager.EvictLru` | aruntime/context/manager.py:431-433 | keeps exactly the last max_contexts of the order |
| `Contexts.ContextManager.BuildAgentContext` | aruntime/context/manager.py:131-176 | returns merged shared, private and readonly data and marks a live context as used |
| `Contexts.ContextManager.RollbackContext` | aruntime/context/manager.py:285-302 | false and no change without a snapshot, else the latest one is restored |

## Left out

- DagSort.TopologicalSort: whether a listing with stale records is topological is left to `RoundsDecide`. For tasks taken in the same round it depends on the order of the tables; `ReturnedIff` gives all the orders that can come out.
- Kernel.KernelScheduler.Enqueue: the id must be new. The queues of the original hold task objects and those of the model ids, so that two tasks under one id would be told apart in one and not in the other. The same holds for the enqueue of the DAG scheduler.
- KernelGrowth.EnqueueKeeps: states the half of `KernelLate.EnqueueKeepsIff` that runs use.
- KernelLate.EnqueueKeepsIff: the id must be new, for the same reason.
- DagLate.EnqueueKeepsIff: the same.
- KernelLate.LateDependencyIsNeverMet: enqueueing a second task under a known id is not among the calls, for the same reason.
- DagLate.LateDependencyIsNeverMet: the same.
- ResourceRuns.Conservation: amounts are not negative; `UsageIsExactIff` states what of it holds for any amounts. Quotas and slots are not looked at there.
- ResourceRuns.AcquireKeeps: the same.
- KernelOrder.OrderIgnoresClock: other policies enter as an arbitrary sort key, and `resource_aware` scores are not modelled. There is one clock reading per sort.
- Attempts: the state a task is in after its deadline expired, its agent disappeared or it was cancelled; the persisted lease rows; traces and agent lifecycle.
- Suspension between coroutines is modelled, update in place of the shared tables is not, for attempts and router deliveries; the router's lock sections themselves are methods of a class.
- Schedulers: what follows a forbidden transition, except for add_dependencies of the queue scheduler, agent selection and capability matching, per-agent queues, the selection log, `queue_snapshot`, `add_dynamic_task`, `block_task`, `wake_blocked`.
- Workflow: the runner's own copy of the state, which overwrites list fields instead of adding to them, LangGraph's recursion limit and checkpoints, prompts, execution records and artifacts.
- Patch integration, git worktrees, provider backends and tools: their answers are arbitrary values.
- Resources: system probes are yes/no answers; `monitor_lease`, snapshots and direct calls of `acquire_llm` and `release_llm` from outside `acquire` and `release`.
- Router: messages restored at startup, which are not tracked until they are enqueued again, `wait_connected`, `send_event`, the message store.
- Contexts: expiry by age, cache keys, token counts and metrics, the summary text; the serialized size and the sorted key list are functions given from outside.
- HTTP endpoints, command line, dashboard, SQLite store, event bus, trace recorder and daemon recovery.
