# Sayiir workflows, verified

Sayiir runs workflows described by a continuation tree: tasks, forks with a join, delays, signal waits,
branches, loops and child workflows. Several independent algorithms work on that tree. This project gives
the tree one reference semantics, `Semantics.Eval` (which result a tree computes on an input, and which task
calls it makes in which order), and proves the algorithms against it and against each other.

- **Stepper.** `engine.rs` compiles a tree to a linear plan and runs it on a machine with a program counter
  and three stacks that splices branch and loop steps into the plan while it runs (`Plan`, `Stepper`). The
  plan computes what `Eval` says (`PlanCorrectness`), within a number of task submissions that can be read
  off the tree (`StepperBound`). Everything the flow builder builds is supported (`Construction`).
- **Durable executor.** `durable.rs` and `lifecycle.rs` walk the tree from the root on every attempt, reuse
  recorded results by node id, and checkpoint a snapshot. `Executor` is that code as a class; each method is
  proved equal to a function of the world before it (`Durable`, `Lifecycle`). A world holds the snapshot in
  memory, the one in the store and the history of calls and saves; an oracle decides guards, saves, calls,
  mail and the clock, including crashes before or after each effect. Over every history of launches,
  crashes, parks, pauses and resumes: a completed instance holds the result of `Eval` and has made exactly its
  calls, and every snapshot saved on the way is right (`CrashResume`, `Refinement`); no saved task is called
  again (`NoRepeat`); no cancel or pause request is ignored, cancelling is final and pausing can be undone
  (`Cancellation`, `Endings`); delays last as long as their nodes say, in forks as long as the longest
  (`DelaySafety`, `Timing`, `ForkWaits`); signal waits end by mail or deadline only (`Waits`); saved positions
  belong to nodes of the tree (`Positions`); reports are true (`Reports`); every instance ends under a working
  backend (`Progress`); resuming with another tree of the same definition does no harm (`Redeployment`); and
  both engines agree (`EnginesAgree`). `Walks` proves once and for all that a law kept by every single
  operation is kept by every walk and every history. `Runs`, `Growth` and `Histories` hold further tools: what
  a walk depends on, what it adds, and what dying right after a save leaves behind.
- **Tree algorithms.** The explicit-stack iterator, the task index, duplicate detection, serialization and
  rehydration, the definition hash's input, and the two ways of building a tree. What a list of builder calls
  means is stated without trees, by reading trees back and by an evaluation of lists (`TaskLists`,
  `ListMeaning`). Every branch node calls its own key function (`BranchKeys`). `SameDefinition` joins
  them: two workflows with the same hash input, and names without delimiters, compute the same thing.
- **Smaller state.** The event mailbox, output staging of snapshots, and the sliding-window rate.

`StepperLimits` and `Limits` show, for all tasks, ids and inputs, what goes wrong outside the conditions of these
theorems, and name the one condition that each of their trees breaks.

Task implementations, key functions and codec operations are parameters (`Semantics.Env`), as are the
iteration order of hash maps (`Keys.Order`) and the digest function. Durations are nanoseconds.

Where code and documentation differ, the model follows the code:

- `best_window_rate` is documented as the maximum over all windows of at least the target width. It computes
  the maximum over the narrowest such window per right end. The two are equal exactly when stretching a
  narrowest window to the left, over less than the required width, never makes it faster than every narrowest
  window (`WindowRate.MaximumExact`).
- It is also documented to give the whole-run rate for runs shorter than the target. It does so exactly when
  nothing completed between the first and the last sample taken at the start time (`WindowRate.WholeRunExact`).
- `FlowBuilder::build` is documented to accept repeated task ids on the ground that a repeated task just runs
  again. On the durable executor it does not (`Limits.RepeatedIdRunsOnce`).
- `add_child_workflow` is documented to fail on an empty child. It accepts it, and `build` fails.
- A fork with one branch gets that branch's id, so every flow-builder workflow with such a fork holds a
  duplicate id and cannot be rehydrated (`TreeIds.SingleForkIsRefused`).
- `TaskIndex::build_task_metadata` is documented as equivalent to the tree search. For a given id the two agree
  exactly when no task has it, or the first task with it and the last task, delay or signal with it are
  configured alike (`TaskIndexes.IndexAgreementExact`).

The conditions of the crash-resume theorem are `CrashResume.Supported`: ids do not clash, the tree starts
with a task or a signal wait (through delays and children), it has no loop, fork branches hold one node, and
a wait inside a child or a route has a successor in its own chain. Rehydrated trees never have clashing ids
(`TreeIds.RehydratedIsDistinct`). For each of these conditions `Limits` has a lemma about trees that break it and
meet the others.

## Model

| member | source | states |
|---|---|---|
| PlanCorrectness.CompilerCorrect | sayiir-cloudflare/src/engine.rs:202-462 | on every tree without a fork inside a fork branch and with loop limits of at least one, the compiled plan with its run-time splicing makes the calls of the reference semantics in order, ends with its value or error, and leaves all three stacks empty |
| PlanCorrectness.Simulate | sayiir-cloudflare/src/engine.rs:202-358 | the steps compiled from a chain, in front of any further plan and on any idle or forking machine, take the machine from the chain's input to its result |
| Stepper.RunWorkflow | sayiir-cloudflare-js/src/engine.ts:241-262 | the driver loop over the imperative stepper terminates, refuses signal waits without a call, and returns the result and the calls of the reference semantics |
| Stepper.PlanBuffer.Flatten | sayiir-cloudflare/src/engine.rs:362-462 | the recursive compiler appends exactly the plan of the tree to its buffer, and fails exactly on trees with a signal wait |
| Stepper.ContinuationStepper.SkipNonTasks | sayiir-cloudflare/src/engine.rs:202-243 | the in-place loop stops at the next task, or at the error, of the plan machine |
| Stepper.ContinuationStepper.HandleBranchStep | sayiir-cloudflare/src/engine.rs:246-284 | splicing the chosen route in place is one step of the plan machine, with its errors |
| Stepper.ContinuationStepper.HandleLoopStep | sayiir-cloudflare/src/engine.rs:287-358 | starting and checking a loop in place is one step of the plan machine, with its errors |
| Stepper.ContinuationStepper.SubmitResult | sayiir-cloudflare/src/engine.rs:188-197 | a task's output moves the machine past the task and on to the next one |
| Plan.Advance | sayiir-cloudflare/src/engine.rs:202-358 | every bookkeeping step strictly lowers the weight of the remaining plan, splices included |
| StepperBound.SubmissionBound | sayiir-cloudflare/src/engine.rs:188-242 | whatever the tasks return, a run ends after at most as many submissions as the tree's own count: longest route per branch, loop limit times body |
| StepperBound.FlattenTasks | sayiir-cloudflare/src/engine.rs:362-462 | compilation keeps that count exactly |
| BranchKeys.OwnKeyFunctions | sayiir-core/src/workflow.rs:414-416 | with ids that do not clash, no name is called twice in a loop-free evaluation or plan, so different branch nodes are routed by different key functions; with loops every call of a plan still has a caller in the tree |
| BranchKeys.OneCaller | sayiir-core/src/workflow.rs:414-416 | a called name tells which node of the tree called it |
| BranchKeys.EveryCallHasCaller | sayiir-cloudflare/src/durable.rs:610-665 | every call of an evaluation is made by a task, or is the key function of a branch node, of the tree |
| BranchKeys.KeyFnIdExact | sayiir-core/src/workflow.rs:414-416 | the name of a key function is the branch id followed by eight fixed characters |
| BranchKeys.KeyFnIdInjective | sayiir-core/src/workflow.rs:414-416 | different branch ids have different key functions |
| Construction.BuilderGivesSteppable | sayiir-core/src/continuation_builder.rs:313-452 | every successful build has task-chain branches and routes, single-task loop bodies with a limit of at least one and joined forks, so the stepper supports it; accepted calls also make forks and branches non-empty |
| Construction.SpineInCallOrder | sayiir-core/src/continuation_builder.rs:313-452 | the main chain of a built tree lists the added tasks in call order, joins included |
| Construction.ForwardIsBackward | sayiir-core/src/workflow.rs:871-887 | appending node by node succeeds exactly when the backward fold does, and gives the same tree |
| Construction.EvalAppend | sayiir-core/src/workflow.rs:871-887 | an appended tree runs the first part and then the second on its result, also through fork joins |
| FlowBuilders.BuildContinuation | sayiir-core/src/continuation_builder.rs:313-452 | the reverse loop gives the tree the task list stands for, or the error of the last faulty task |
| FlowBuilders.BuildChain | sayiir-core/src/continuation_builder.rs:95-110 | the reverse loop gives the chain in order, and fails exactly on the empty chain |
| FlowBuilders.FlowBuilder.AddSequential | sayiir-core/src/continuation_builder.rs:142-145 | a task is recorded last, and nothing else changes |
| FlowBuilders.FlowBuilder.AddFork | sayiir-core/src/continuation_builder.rs:152-176 | a fork is recorded exactly when it has branches and none is empty; otherwise the builder is unchanged |
| FlowBuilders.FlowBuilder.AddLoop | sayiir-core/src/continuation_builder.rs:215-240 | a loop is recorded exactly when it may run, under a fresh counter id |
| FlowBuilders.FlowBuilder.AddBranch | sayiir-core/src/continuation_builder.rs:243-264 | a branch is recorded exactly when it has routes and none is empty, under a fresh counter id |
| FlowBuilders.FlowBuilder.AddDelay | sayiir-core/src/continuation_builder.rs:179-190 | a delay is recorded exactly when its duration is finite and not negative |
| FlowBuilders.FlowBuilder.AddSignal | sayiir-core/src/continuation_builder.rs:193-212 | a signal wait is recorded exactly when its timeout, if any, is finite and not negative |
| FlowBuilders.FlowBuilder.AddChildWorkflow | sayiir-core/src/continuation_builder.rs:271-276 | a child is recorded unchecked |
| FlowBuilders.FlowBuilder.Build | sayiir-core/src/continuation_builder.rs:294-296 | building gives the tree of the collected tasks |
| TaskLists.BuiltTreeReadsBack | sayiir-core/src/continuation_builder.rs:313-452 | everything that was added can be read back from the built tree: ids, settings, branches, joins, signal names, loop bodies, limits and policies unchanged, routes with the last one given for a key, durations rounded down to nanoseconds |
| TaskLists.NanosExact | sayiir-core/src/continuation_builder.rs:334-354 | a second is a thousand million nanoseconds, and a duration loses less than one |
| TaskLists.RoutesWin | sayiir-core/src/continuation_builder.rs:395-398 | of several routes given for a key, the last one is the one in the tree |
| ListMeaning.BuiltTreeMeans | sayiir-core/src/continuation_builder.rs:313-452 | the built tree computes, call by call, what the list of tasks means by itself: chains, forks with their joins, last-wins routes under their own key function, loops with limit and policy, children |
| ListMeaning.BuiltPlanRuns | sayiir-cloudflare/src/engine.rs:202-462 | so does the compiled plan of the built tree |
| ListMeaning.BuildFailsExactly | sayiir-core/src/continuation_builder.rs:313-452 | building fails exactly on the empty list and on lists with a faulty task, also inside children, and reports the last fault |
| ListMeaning.ForkIdReads | sayiir-core/src/workflow.rs:432-434 | the first tasks of a fork's branches can be read off its id, if they have no bars |
| Refinement.CrashResumeRefinement | sayiir-cloudflare/src/lifecycle.rs:32-315 | after a launch and any sequence of resumes and unpauses, under any crashes, refused saves, requests and signals: every call made is one the semantics makes on the original input; a completed instance holds the semantics' result and made exactly the calls of that evaluation; one that failed, with a backend that did not, has no result in the semantics; every saved snapshot agrees with the semantics |
| Refinement.NoCallIsMissing | sayiir-cloudflare/src/durable.rs:352-392 | a completed instance has made every call of the evaluation: otherwise the same history would unfold with that call refused |
| Refinement.SavesAgree | sayiir-cloudflare/src/durable.rs:345-350 | every snapshot ever written before the end of an instance, at whatever point inside an attempt, agrees with the semantics |
| Refinement.DemandIsCalls | sayiir-cloudflare/src/durable.rs:309-436 | once a tree's evaluation has finished, the calls demanded by its parts are exactly the calls of the evaluation |
| CrashResume.HistoryFaithful | sayiir-cloudflare/src/lifecycle.rs:32-315 | after every history the stored snapshot agrees with the semantics, or holds its result, or records that there is none, and all calls are accounted for |
| CrashResume.ResumeWalk | sayiir-cloudflare/src/lifecycle.rs:151-168 | feeding the last recorded output into the root walks as the original input would |
| CrashResume.ResolveFaithful | sayiir-cloudflare/src/lifecycle.rs:175-315 | resolving a delay, fork or signal position keeps the store faithful, and completes the workflow only with its right result |
| Histories.HistoryCut | sayiir-cloudflare/src/durable.rs:345-350 | whatever snapshot a history has written is what another history, which dies right after that write, ends with |
| Histories.HistoryLocal | sayiir-cloudflare/src/durable.rs:309-436 | a history depends on nothing but the answers it gets from tasks, guards, saves, mail and clock |
| Runs.ExecCut | sayiir-cloudflare/src/durable.rs:309-436 | dying right after any save of a walk leaves exactly that save in the store |
| Walks.HistoryRests | sayiir-cloudflare/src/lifecycle.rs:32-315 | a law that survives every guard, call, save, park and loop step, and everything around a walk, holds after every history |
| Walks.ExecEnds | sayiir-cloudflare/src/durable.rs:309-789 | such a law is kept by every walk through every tree, with the wake times of waiting fork branches carried along |
| Growth.HistoryGrows | sayiir-cloudflare/src/durable.rs:309-436 | every action only adds to the history, with each call stamped at one of its own steps, and keeps the last save in the store |
| Progress.InstancesEnd | sayiir-cloudflare/src/lifecycle.rs:175-315 | with a working backend and resumes that are due, because a wake time or a deadline has passed or there is mail, an instance has ended after as many resumes as the tree has ids: with the semantics' result if there is one, as failed otherwise |
| Redeployment.RedeploymentIsSafe | sayiir-cloudflare/src/lifecycle.rs:43-48 | every resume may bring any tree with names free of delimiters: the comparison of definitions refuses those that differ, and with the others the store stays faithful to the tree that was launched |
| Redeployment.SameSupported | sayiir-core/src/workflow.rs:1257-1265 | whether a tree may be crashed and resumed depends on its definition alone |
| DurableResume.RunChain | sayiir-cloudflare/src/durable.rs:309-436 | one attempt from any snapshot that agrees with the semantics, under any faults, stores only agreeing snapshots, makes only calls of the semantics, and returns only its result |
| DurableFresh.FreshRun | sayiir-cloudflare/src/durable.rs:309-436 | an undisturbed run from untouched ids makes the calls and gives the result of the semantics, loops included, although results are looked up by id |
| NoRepeat.CompletedWorkNeverRepeats | sayiir-cloudflare/src/durable.rs:368-389 | over every history of a loop-free tree no task call follows a save that holds the task's result |
| DelaySafety.DelaysAreRespected | sayiir-cloudflare/src/durable.rs:410-435 | over every history with a monotone clock and no delay in a fork branch, no call precedes the wake time of a delay that parked before it |
| Timing.DelaysLast | sayiir-cloudflare/src/durable.rs:418-431 | for every saved park at a delay, with a monotone clock and no delay in a fork branch: everything before it was called by its start, and nothing after it before that start plus the duration of a delay node of the tree with that id (zero beyond 2^63-1 milliseconds) |
| Timing.DeadlinesLast | sayiir-cloudflare/src/durable.rs:485-501 | for every saved park at a signal with a deadline, in any tree: the deadline is at least the timeout of a signal node of the tree with that id and name after everything called before |
| Positions.PositionsBelong | sayiir-cloudflare/src/durable.rs:394-510 | every saved position is one of the tree's: a delay with its node's duration, a signal wait with its name and a deadline exactly if there is a timeout, a loop within its limit, each with the start of what follows |
| ForkWaits.WaitingIsForAll | sayiir-cloudflare/src/durable.rs:528-571 | once an action has reported that an instance of any tree waits, nothing is ever called before the wake time of any delay or fork it has parked at, so a fork waits for its longest branch |
| ForkWaits.SleepersSleep | sayiir-cloudflare/src/lifecycle.rs:180-246 | as long as the store sleeps at a delay or a fork, nothing is called before its wake time, whatever actions follow |
| Waits.WaitsAreHonoured | sayiir-cloudflare/src/lifecycle.rs:247-315 | after any history that leaves an instance waiting for a signal, through whatever follows: nothing is called or completed, and position and results stay, until something is delivered for the signal, or its deadline has passed before the next call |
| Waits.WaitStep | sayiir-cloudflare/src/lifecycle.rs:247-315 | one action leaves a wait, pauses, unpauses or cancels it, or ends it by first saving exactly the delivered payload, or the empty one if there was no mail and the deadline had passed |
| Waits.SavedWaitsAreLeft | sayiir-cloudflare/src/durable.rs:483-505 | a wait that an action has saved is what it leaves in the store, unless the instance has failed, and no call follows it in that action |
| Endings.CancelIsFinal | sayiir-cloudflare/src/durable.rs:880-903 | wherever an action looks for requests and a cancel request is pending, the store is from then on cancelled, with the results and under the scope of that moment, whatever actions follow, and nothing more is called or saved |
| Endings.PauseIsUndone | sayiir-cloudflare/src/durable.rs:880-903 | a pending pause request leaves the stored snapshot paused with its position and results, and one unpause gives back the very same snapshot |
| Endings.RequestsAreSeen | sayiir-persistence/src/backend.rs:295-340 | wherever an action looks for requests the stored instance is in progress, so no request is ignored |
| Endings.EndIsLast | sayiir-persistence/src/backend.rs:304-308 | no call and no save follows the save of a completed, failed or cancelled snapshot, which still holds the instance's input and, unless cancelled, no loop counts |
| Cancellation.ExecHeeds | sayiir-cloudflare/src/durable.rs:880-903 | requests are looked for on entry to every node and after every task; one that is seen, or a check that fails, ends the walk there, inside forks, routes, loops and children, with nothing but the marked snapshot stored |
| Cancellation.FailingGuardFails | sayiir-cloudflare/src/durable.rs:880-903 | a check that fails makes the instance fail |
| Reports.ResumesTell | sayiir-cloudflare/src/durable.rs:144-193 | a resume reports truly: over or not due, with nothing changed; stopped by the request that the store shows; completed; or what its walk has left in the store |
| EnginesAgree.UninterruptedRunsAgree | sayiir-cloudflare/src/durable.rs:309-436 | an undisturbed durable launch and a stepper run of the same built tree make the same calls and end alike |
| EnginesAgree.CompletedInstancesAgree | sayiir-cloudflare/src/lifecycle.rs:32-315 | however a durable instance was interrupted: if it completes then the stepper run succeeds with the same output after the same calls, and if it fails, with a backend that did not, then the stepper run fails |
| Executors.Executor.Run | sayiir-cloudflare/src/durable.rs:309-325 | the loop over steps is the recursive walk of the chain, with its world |
| Executors.Executor.Step | sayiir-cloudflare/src/durable.rs:327-343 | one step runs one node and continues with its successor, or stops |
| Executors.Executor.HandleTask | sayiir-cloudflare/src/durable.rs:352-392 | guard, reuse, call, record, save and guard again, with every failure in between |
| Executors.Executor.HandleDelay | sayiir-cloudflare/src/durable.rs:394-436 | a recorded delay passes its input on, a new one parks with its wake time |
| Executors.Executor.HandleAwaitSignal | sayiir-cloudflare/src/durable.rs:438-510 | a recorded or delivered payload goes on, otherwise the wait parks with its deadline |
| Executors.Executor.HandleFork | sayiir-cloudflare/src/durable.rs:512-608 | the branch loop reuses, runs and records branches in order, lets a waiting branch be overtaken, and parks at the latest wake time |
| Executors.Executor.HandleBranch | sayiir-cloudflare/src/durable.rs:610-665 | key function, routing, route, envelope and record, with their errors |
| Executors.Executor.HandleLoop | sayiir-cloudflare/src/durable.rs:667-754 | the iteration loop drops the body's results, saves the count, and honours the limit policy |
| Executors.Executor.HandleChildWorkflow | sayiir-cloudflare/src/durable.rs:756-789 | a child runs as a nested chain and is recorded under its own id |
| Executors.Executor.CheckGuards | sayiir-cloudflare/src/durable.rs:880-903 | a pending cancel or pause request is applied to the stored snapshot and stops the walk |
| Executors.Executor.ResolveParkedPosition | sayiir-cloudflare/src/lifecycle.rs:175-315 | each parked position is resolved, left, or completed as specified, with every failure |
| Executors.Executor.FinalizeExecution | sayiir-cloudflare/src/lifecycle.rs:69-148 | results and failures are stored, parks and halts leave the store alone |
| Executors.Executor.Launch | sayiir-cloudflare/src/durable.rs:94-136 | launching is the walk of the fresh instance; on a supported tree the store is then faithful, and a completed instance holds the result of the semantics |
| Executors.Executor.ResumeInstance | sayiir-cloudflare/src/durable.rs:144-193 | compare definitions, load, resolve, choose the resume input, walk and finalize; a store faithful to the launched tree stays so, whatever tree with names free of delimiters is brought |
| Executors.Executor.UnpauseInstance | sayiir-cloudflare/src/durable.rs:263-275 | unpausing keeps the store faithful |
| DefinitionHash.TextIdentifiesDefinition | sayiir-core/src/workflow.rs:1267-1417 | for names without delimiters, two trees feed the hasher the same text, under any map orders, exactly when they agree on ids, structure, timeouts, retries, versions, signals, routes and limits |
| DefinitionHash.EssenceAlike | sayiir-core/src/workflow.rs:1267-1417 | the covered part of a tree is exactly its ids, structure, timeouts, retry counts, delays and factors, versions, signal names, routes, limits and policies |
| DefinitionHash.DelimitersInIdsCollide | sayiir-core/src/workflow.rs:1267-1417 | a task id that spells out a second task gives the text of a different workflow |
| DefinitionHash.SameText | sayiir-core/src/workflow.rs:1358-1366 | the text depends on the covered part alone and not on the iteration order of any map |
| DefinitionHash.Hasher.HashContinuation | sayiir-core/src/workflow.rs:1269-1411 | the recursive feeding appends exactly the text of the tree |
| DefinitionHash.ComputeDefinitionHash | sayiir-core/src/workflow.rs:1267-1417 | the hash is the digest of the tree's text |
| Definition.Read | sayiir-core/src/workflow.rs:1269-1411 | a text can be read back: equal texts with any admissible rest come from trees of equal covered part, and leave equal rests |
| SameDefinition.SameTextSameMeaning | sayiir-core/src/workflow.rs:1257-1265 | two workflows whose names avoid the delimiters and that have the same hash input give, on any signals and input, the same result with the same calls, so no change of meaning goes unnoticed |
| SameDefinition.RehydrationPreservesMeaning | sayiir-core/src/workflow.rs:1037-1195 | a stored and rehydrated tree computes what the original did, and has its hash input |
| Rehydration.RehydrationExact | sayiir-core/src/workflow.rs:1037-1195 | rehydration succeeds exactly when ids are distinct and all task and key-function ids are registered; the result serializes to the stored tree and is wired to the registry; a reported duplicate occurs twice |
| Rehydration.RoundTripExact | sayiir-core/src/workflow.rs:786-866 | serializing and rehydrating gives back the same tree exactly when its ids are distinct, it is wired to the registry, and its durations are whole milliseconds that fit 64 bits |
| Identifiers.FindDuplicateId | sayiir-core/src/workflow.rs:46-106 | the early-exit search with its growing set reports none exactly when all ids are distinct, and reports only ids that occur twice |
| Identifiers.SeenIds.Collect | sayiir-core/src/workflow.rs:50-101 | the recursive walk is a left-to-right scan of the ids in visiting order |
| Identifiers.VerdictIgnoresOrder | sayiir-core/src/workflow.rs:69-80 | whether a duplicate is reported does not depend on the iteration order of the route maps |
| Identifiers.IdList.Collect | sayiir-core/src/workflow.rs:1199-1255 | the id collector appends every id of the tree in visiting order |
| Nodes.IterNodes | sayiir-core/src/workflow.rs:160-305 | draining the explicit-stack iterator terminates with the recursive pre-order over sorted route keys, predecessor ids included |
| Nodes.NodeIter.Next | sayiir-core/src/workflow.rs:169-305 | each call yields the first pending node and leaves the others pending, or reports the end |
| Nodes.TopologicalOrder | sayiir-core/src/workflow.rs:768-782 | the root comes first without a predecessor, and every other node follows the node it names |
| Nodes.IterationDeterministic | sayiir-core/src/workflow.rs:263-277 | sorted keys make the iteration independent of map iteration |
| TreeIds.IteratorVisitsTaskIds | sayiir-core/src/workflow.rs:1199-1255 | the iterator yields each id exactly as often as the serialized tree lists it |
| TreeIds.UniqueGivesDistinct | sayiir-core/src/workflow.rs:46-106 | a tree without a duplicate meets the durable engine's requirement on cache keys |
| TreeIds.RehydratedIsDistinct | sayiir-core/src/workflow.rs:1037-1046 | so does every rehydrated tree |
| TreeIds.SingleForkIsRefused | sayiir-core/src/continuation_builder.rs:313-452 | a built workflow with a one-branch fork anywhere, nested children included, is never rehydrated |
| TaskIndexes.IndexAgreementExact | sayiir-core/src/task_index.rs:85-179 | on any tree and for any digest, index and search give the same configuration exactly when no task has the digest, or the first task with it in the search's order and the last indexed node with it in the iterator's order are configured alike |
| TaskIndexes.IndexAgreesWithSearch | sayiir-core/src/task_index.rs:158-174 | they agree for every id when no two tasks, delays and signals share a digest; forks, branches, loops and children may share theirs with a task |
| TaskIndexes.SearchIsFirst | sayiir-core/src/workflow.rs:569-614 | the search returns the first task with the digest in its own pre-order, and nothing exactly if there is none |
| TaskIndexes.IndexIsLast | sayiir-core/src/task_index.rs:85-120 | the index holds the entry of the last indexed node with the digest |
| TaskIndexes.FirstTaskHintAgrees | sayiir-core/src/workflow.rs:470-539 | the first-task hint carries the index's priority and tags, unless the workflow starts with a branch or an empty fork whose id is taken by an indexed node |
| TaskIndexes.RepeatedIdDisagrees | sayiir-core/src/task_index.rs:85-120 | for a task id used twice the search returns the first settings and the index the last |
| Events.EventStore.SendEvent | sayiir-d1/src/signal_store.rs:113-132 | an accepted event is appended; every mailbox keeps its balance: sent is received followed by buffered, in order |
| Events.EventStore.ConsumeEvent | sayiir-d1/src/signal_store.rs:134-170 | the oldest event of the mailbox is delivered and removed, or nothing changes; every mailbox keeps its balance |
| Events.ConservedStep | sayiir-d1/src/signal_store.rs:113-170 | a step that moves payloads only as its reply says keeps the balance of a mailbox over the whole history |
| Staging.StagingRoundTrip | sayiir-core/src/snapshot.rs:703-736 | putting the taken outputs back in any order restores the snapshot, if results are stored under their own ids |
| Staging.StagedSnapshot.TakeTaskOutputs | sayiir-core/src/snapshot.rs:703-715 | all outputs are emptied and the non-empty ones returned with their ids |
| Staging.StagedSnapshot.HydrateTaskOutputs | sayiir-core/src/snapshot.rs:721-733 | outputs are patched by id, unknown ids are dropped |
| Staging.StagedSnapshot.MarkTaskCompleted | sayiir-core/src/snapshot.rs:751-765 | a result is stored under its own id, and only while in progress |
| Staging.StagedSnapshot.RemoveTaskResult | sayiir-core/src/snapshot.rs:945-953 | a result is dropped, the others stay under their own ids, and the last-completed id may now name nothing |
| Staging.StagedSnapshot.MarkPaused | sayiir-core/src/snapshot.rs:978-996 | pausing keeps all results and the last-completed id, and only applies in progress |
| Staging.StagedSnapshot.MarkUnpaused | sayiir-core/src/snapshot.rs:1000-1015 | unpausing undoes it, results and last-completed id included |
| Staging.StagedSnapshot.MarkCancelled | sayiir-core/src/snapshot.rs:1020-1042 | cancelling keeps the results of a workflow in progress, and drops those of a paused one |
| WindowRate.BestWindowRate | benchmarks/src/report.rs:128-157 | the two-pointer sweep gives the maximum, over right ends, of the rate on the narrowest window of the required width ending there, or zero |
| WindowRate.MaximumExact | benchmarks/src/report.rs:117-118 | the result is the maximum over all windows of the required width exactly when every narrowest window stretched over less than that width is matched by a narrowest window |
| WindowRate.SparseSamplesAreMaximal | benchmarks/src/report.rs:117-118 | it is that maximum when neighbouring samples are at least the required width apart |
| WindowRate.WiderWindowCanBeFaster | benchmarks/src/report.rs:117-118 | in general it is not |
| WindowRate.WholeRunExact | benchmarks/src/report.rs:125-126 | for a run within the target the result is the whole-run rate exactly when nothing completed between the first and the last sample at the start time |
| WindowRate.ShortRunRate | benchmarks/src/report.rs:134-155 | for such a run it is the rate from the last sample at the start time |
| WindowRate.WholeRunCanBeMissed | benchmarks/src/report.rs:125-126 | it can be zero although the whole run has a positive rate |
| StepperLimits.NestedForkBreaksStepper | sayiir-cloudflare/src/engine.rs:207-215 | with a fork inside a fork branch, for all tasks and inputs, the stepper calls the next branch with the inner fork's result, which is what the semantics does exactly if that equals the input, and joins the last branch alone |
| StepperLimits.ZeroIterationsRunOnce | sayiir-cloudflare/src/engine.rs:287-358 | a loop limit of zero: for all tasks and inputs the stepper calls the body's task and the semantics calls nothing |
| StepperLimits.UnreachablePartIsHarmless | sayiir-cloudflare/src/engine.rs:246-284 | behind a branch node without routes any tree at all is run as the semantics says, so the stepper's conditions have no converse |
| Limits.RootForkMixesInputs | sayiir-cloudflare/src/lifecycle.rs:151-168 | a tree that breaks the root condition alone: a crash between the branches of a root fork makes the next branch run on the previous one's result, which is a call of the semantics exactly if that result equals the input |
| Limits.BranchIsCutShort | sayiir-cloudflare/src/durable.rs:537-553 | a tree whose only fault is a two-task fork branch: a crash inside it completes the workflow without ever calling the second task |
| Limits.DelayAtChildEndFinishes | sayiir-cloudflare/src/lifecycle.rs:205-214 | a tree whose only fault is a delay at the end of a child: the resume completes the whole workflow without calling what follows |
| Limits.ResumedLoopForgetsValue | sayiir-cloudflare/src/durable.rs:697-754 | a tree whose only fault is a loop: parked in its second iteration and resumed, it never calls the body's task with that iteration's value, which the semantics does, and completes |
| Limits.RepeatedIdRunsOnce | sayiir-core/src/continuation_builder.rs:290-296 | a tree whose only fault is a repeated task id: the second occurrence is not executed; the result is right exactly if the task maps its own result to itself |
| Limits.LoopRepeatsSavedTask | sayiir-cloudflare/src/durable.rs:697-754 | a loop calls a task again after a save that held its result |
| Limits.ForkIgnoresSiblingDelay | sayiir-cloudflare/src/durable.rs:537-581 | a task beside a parked delay in a fork is called before the wake time |

## Left out

- Refinement.CrashResumeRefinement: holds for `Supported` trees only; `Limits` shows for each condition a family of trees that breaks it alone and goes wrong, not that every tree that breaks one does.
- PlanCorrectness.CompilerCorrect: its conditions are sufficient; a converse is false, since a part that is never reached may break them (`StepperLimits.UnreachablePartIsHarmless`), and which parts are reached depends on what the tasks return.
- DefinitionHash.TextIdentifiesDefinition: the delimiter condition is sufficient, not necessary for every single tree; priorities, tags, the retry delay cap and the sub-millisecond part of the retry delay are not hashed.
- WindowRate.BestWindowRate: rates are exact reals, without floating-point rounding.
- Construction.EvalAppend: appending is modelled on values; the code edits the tail in place.
- Events.EventStore.ConsumeEvent: a failed statement has no effect; a delete that takes effect and is reported as failed would lose an event.
- FlowBuilders.FlowBuilder.AddDelay: seconds are reals or not finite; the rounding and range of the conversion from floating point are not modelled.
- Progress.InstancesEnd: assumes that no request, crash, refused save or failing mailbox interferes; without that there is no bound.
- Timing.DelaysLast: not for delays in fork branches, whose snapshots are saved again by their siblings; `ForkWaits.WaitingIsForAll` covers them.
- Executors.Executor.HandleFork: the results of finished branches that a parked fork's position repeats are never read, and nothing is proved of them.
- Executors.Executor.Launch: starts from a stored fresh instance; the conflict policy for an instance id that is already in use is not modelled.
- Executors.Executor.ResumeInstance: compares definition texts where the code compares their SHA-256 digests.
- Retries, task deadlines, priorities of dispatch and timestamps of snapshots.
- The JavaScript bridge, JSON encoding, base64 and the loop result envelope: foreign calls and codec operations are parameters.
- SQL text, migrations, the Postgres backend, task claiming and the pooled worker.
- The commands that cancel and pause an instance: requests reach the executor through the guards' verdicts.
- Signal delivery to a crashed mail read: an event consumed just before a crash is lost to the instance, and the oracle may deliver nothing afterwards.
- Mutation of task settings by id, the typed builder, workflow and instance wrappers, SHA-256 and hex printing.
