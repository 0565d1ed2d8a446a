# Verified model of the agent orchestrator

A Dafny model of the orchestration system: the graph that plans a task, runs its subtasks in parallel
super-steps, reviews, redoes and escalates to humans; and the four stateful components around it (the tool
registry with the specialist's tool loop, long-term memory, the approval queue, the tracing recorder and
store). Every answer of a language model, a tool, an index or a human is an arbitrary input, so each theorem
holds whatever they answer.

`dafny verify dfyconfig.toml` checks the whole project.

## How the graph is modelled

`Graph.dfy` holds one function per node and router of `src/agent_orchestrator/graph/build.py` and one step
function over its edge table (lines 611-650); `Run` folds it over a sequence of inputs, one per step.
Retry limit M, review limit C and the two thresholds are parameters (`Limits`).

- `PlanNode` 152-176, `Gated` and `RouteAfterPlan` 178-186, `DecideNextBatch` 191-236
- `RunBranch` 238-301, `RunBranches` the super-step of `Send`s 214-229 with the reducers of `graph/state.py`
- `ReviewNode` 303-331, `RouteAfterReview` 332-342, `FeedbackNode` 344-359, `NotifyNode` 361-383
- `EscalationSource`, `RaiseEscalation`, `StuckIds`, `EscalationNode` 432-532
- `DecisionUpdate`, `DecisionNode` 534-590, `RouteAfterDecision` 592-609
- `Synthesize` 385-403, `Deliver` 405-421 and `RejectTask` 423-430 inside `Step`

The two lookups over a plan are kept as they are: `by_id` takes the last subtask with an id (`ById`), the
specialist node takes the first (`FirstMatch`). A node that would raise goes to `Crashed`, which no run
reaches. `Serial.dfy` gives specialists as functions of exactly what they read; elsewhere their answers are
inputs of the step. Each state carries the log of executed nodes (`trace_events`), and the safety properties
are read back from that log by functions of `Traces.dfy` that look at nothing else.

Classes (`Registry`, `Specialists`, `LongTermMemory`, `ApprovalQueue`, `TraceStore`) update their fields in
place as the source does. Each method is specified by functions of the old state, about which the lemmas speak;
`Dialogue.dfy` holds those of a specialist's run: which calls the registry accepts in a given world, what the
model is told of each, and how the transcript grows.

## Where a promise of the code or its comments does not hold

- `plan_task` writes empty `completed` and `retry_counts`; under the merge reducer these writes change
  nothing. Harmless: both are empty whenever the node is entered (`ReplanningStartsClean`).
- The escalation levels listed at the top of `build.py` promise TAKE_OVER for a specialist that keeps failing.
  `human_escalation` looks at the last review first: after a redo a stuck specialist is shown as an exhausted
  review, or as a sensitive deliverable if that review asked for a human, and its id is not shown.
  `StuckSpecialistIsPresentedAs` and `ShownIdsAreTheStuckOnes` say exactly when, `FailedRedoReachesHuman` and
  `FailedRedoLooksSensitive` are runs. Approving then synthesizes with a failed subtask:
  `SynthesisSeesAllSuccesses` gives the exact condition, `SynthesisOfAFailedSubtask` a run.
- On MODIFY of a reviewed result the reviewer's feedback overwrites the human's guidance unless the review
  named no subtask or said the same. `GuidanceReachesRedo` gives the condition, `GuidanceIsOverwritten` a run.
- With duplicated ids the scheduler checks the dependencies of one subtask and executes another, so a batch
  may depend on itself. `DuplicateIdsMakeDependentBatch` gives a run; a batch serializes exactly when it is
  independent (`IndependentBatchesSerialize`, `DependentBatchesDoNotSerialize`), as it always is with unique ids.
- A plan with a cyclic or dangling dependency is never reviewed nor synthesized (`IncompletablePlansStall`), and once
  any of its subtasks was executed the task can only end rejected (`BegunInVainEndsOnlyRejected`). A human can
  deliver it only before that, by taking over the plan (`GatedPlansCanBeTakenOver`). An escalation of the scheduler
  that names no stuck subtask is answered in vain exactly by APPROVE and, once there are results, by anything but
  REJECT (`EmptyEscalationLoops`).
- The reason shown with an escalation is false exactly when nothing was reviewed, no approval is pending and every
  subtask that can ever be done has been (`ReasonsAreTrueUnlessNothingIsLeft`): it then blames the caller for
  requesting approval (`UnstartablePlanClaimsARequest`) or a specialist for running out of retries
  (`DanglingPlanBlamesASpecialist`).
- The retry counter can exceed M (`CounterExceedsTheLimit`): a redo does not reset it, and a subtask without a
  result is dispatched whatever its counter. `CounterPassesTheLimit` says in which steps, `RetryAccounting` how far.
- The registry's docstring says every call is logged. A call refused for its name, its specialist or the rate
  limit is not (`ToolRegistry.Invoke` says exactly which, `RefusalIsNotLogged` is one).
- The forced last turn of a specialist can itself contain tool calls, which stay unanswered in the transcript
  of the structured call (`SpecialistAgent.Conclude` says exactly when, `ForcedTurnLeavesCalls` is a model that does).
- `human_review_ms` is the time of the last approval only, although `build.py` (lines 436-439) points to it as the
  real human wait time. `LastWaitIsTotal` and `ReviewTimeOfOneApproval` give the condition,
  `TwoApprovalsCountOnce` a session.
- A queue method is several Redis commands. `UndisturbedIsConsistent` holds when no other client's command on the
  task, but for polls, falls inside a method; `MessageUndoesDecision`, `StaleDecisionIsUsed` and `LateRemovalHidesTask` are the
  losses otherwise.

## Model

| member | source | states |
|---|---|---|
| Reducers.MergeOptionalDict | src/agent_orchestrator/graph/state.py:17-24 | the loop over the right-hand entries computes the merge: values are written, None deletes, absent arguments are empty, whatever the order |
| Graph.DecideNextBatchLoop | src/agent_orchestrator/graph/build.py:191-236 | the scheduling loop over `by_id` gives the verdict of the declarative `DecideNextBatch` |
| Graph.LookupsAgreeOnKeys | src/agent_orchestrator/graph/build.py:195-242 | last-match and first-match lookup are defined for exactly the same ids, the ids of the plan |
| Graph.OrderedIdsInOrder | src/agent_orchestrator/graph/build.py:195-199 | the scheduler goes through the ids in the order of their first occurrence in the plan |
| Graph.ReadyAmongSelects | src/agent_orchestrator/graph/build.py:199-212 | the batch is exactly the unfinished, not stuck subtasks whose dependencies succeeded, each once |
| Plans.CompletableIsLeast | src/agent_orchestrator/graph/build.py:207-212 | the completable subtasks are the least set closed under "all dependencies done" |
| Plans.AcyclicIffAllCompletable | src/agent_orchestrator/graph/build.py:207-212 | every subtask is completable if and only if the dependencies are closed and acyclic |
| GraphInvariant.RunBranchesEffect | src/agent_orchestrator/graph/build.py:214-281 | the reduced super-step in closed form: each branch wrote its own result and its own counter, computed on the snapshot, nothing else changed |
| GraphInvariant.StepKeepsInv | src/agent_orchestrator/graph/build.py:611-650 | every node and edge keeps the invariant: results and counters belong to the plan, failures keep their dependencies done, after a review only what it can send back is unfinished |
| GraphInvariant.RunKeepsInv | src/agent_orchestrator/graph/build.py:611-650 | over any run with any plans, answers and decisions the invariant holds and no node meets a missing key or an absent review |
| GraphInvariant.ReviewOnlyWhenAllSucceeded | src/agent_orchestrator/graph/build.py:231-236 | the test on sizes and failures is enough: review is chosen only on a fully successful plan |
| GraphInvariant.BranchesKeepSuccesses | src/agent_orchestrator/graph/build.py:199-229 | a super-step overwrites no success |
| Progress.SchedulerVerdict | src/agent_orchestrator/graph/build.py:191-236 | at every reachable decision: escalate iff something is stuck or nothing completable is left undone on an unfinished plan, dispatch exactly the ready set iff completable work is left, review iff all succeeded |
| Progress.ReviewSeesEverySubtask | src/agent_orchestrator/graph/build.py:231-236 | on entering review the results are exactly the plan's ids and all successful |
| Progress.AcyclicEscalatesOnlyWhenStuck | src/agent_orchestrator/graph/build.py:197-236 | on a closed, acyclic plan the scheduler escalates if and only if some subtask is stuck, and else dispatches until all succeeded |
| Redo.ShownIdsAreTheStuckOnes | src/agent_orchestrator/graph/build.py:464-489 | for every escalation of the scheduler: the ids shown to the human are exactly the stuck ones if and only if nothing was reviewed yet |
| Progress.IncompletablePlansStall | src/agent_orchestrator/graph/build.py:207-236 | a subtask outside the least fixed point never runs nor succeeds, and its plan never reaches review, notification or synthesis, however humans answer |
| Progress.EmptyDecisionChangesNothing | src/agent_orchestrator/graph/build.py:541-609 | before any review and without stuck ids, a decision leads back to the scheduler with the very same work if and only if it is APPROVE, or there are results and it is not REJECT |
| Progress.EmptyEscalationLoops | src/agent_orchestrator/graph/build.py:231-235 | so an escalation of the scheduler without stuck ids is answered in vain exactly by those decisions, and one step later the same escalation is open again on the same work |
| DeadEnds.BegunInVainEndsOnlyRejected | src/agent_orchestrator/graph/build.py:191-236 | once any subtask was executed of a plan with a subtask that can never be, the machine stays with that plan between the scheduler, the specialists and the human, whatever anyone answers, and can only end rejected |
| DeadEnds.GatedPlansCanBeTakenOver | src/agent_orchestrator/graph/build.py:541-556 | before that, any plan shown for approval, finishable or not, can be delivered by TAKE_OVER in five steps, with nothing executed |
| Fuel.BranchesBurnFuel | src/agent_orchestrator/graph/build.py:199-281 | every branch of a super-step burns a unit of the work left in the plan |
| Termination.StepSpendsBudget | src/agent_orchestrator/graph/build.py:611-650 | every step that is not at an interrupt or the end lowers one natural-number measure |
| Termination.BudgetBoundsRun | src/agent_orchestrator/graph/build.py:611-650 | steps taken plus measure left never exceed the measure at the start |
| Termination.EveryStretchIsBounded | src/agent_orchestrator/graph/build.py:611-650 | from any reachable state, for any plan and answers, a stretch without interrupt and end is at most an explicit function of M, C and the number of ids |
| Termination.EveryTaskComesToRest | src/agent_orchestrator/graph/build.py:611-650 | a fresh task given that many steps reaches an interrupt or the end |
| Completion.HealthyPlansReachReview | src/agent_orchestrator/graph/build.py:191-236 | a closed, acyclic plan of n ids that needs no approval and whose specialists succeed is reviewed within 2n + 3 steps, all its subtasks successful, no human asked |
| Serial.SerialEffect | src/agent_orchestrator/graph/build.py:238-281 | closed form of running an independent batch one subtask after the other on the evolving state, for every specialist and order |
| Serial.IndependentBatchesSerialize | src/agent_orchestrator/graph/build.py:214-281 | an independent batch gives the same results and counters in parallel and in every serial order |
| Serial.UniqueIdsMakeBatchesIndependent | src/agent_orchestrator/graph/build.py:195-242 | with unique ids no ready subtask executes with a dependency on another |
| Serial.ParallelBatchIsSerializable | src/agent_orchestrator/graph/build.py:214-281 | hence every reachable super-step of a plan with unique ids is serializable, in every order and for every specialist |
| Serial.DependentBatchesDoNotSerialize | src/agent_orchestrator/graph/build.py:242-281 | conversely, a batch that is not independent has a specialist and an order that tell the two apart |
| Serial.ContextUnchanged | src/agent_orchestrator/agents/specialists.py:99-103 | a specialist's dependency context ignores results it does not depend on |
| Serial.BranchesAreTold | src/agent_orchestrator/agents/specialists.py:93-116 | each branch is given its own subtask's feedback and the outputs of exactly the subtasks it depends on, shown by specialists that repeat what they are told |
| Traces.EscalationsCountDecisions | src/agent_orchestrator/tracing/recorder.py:159-161 | the trace holds exactly one escalation entry per human decision consumed, over any run |
| Traces.TraceOnlyGrows | src/agent_orchestrator/graph/state.py:48 | from any reachable state the trace only grows at its end, so the recorder's mark stays valid |
| Gate.HumanGate | src/agent_orchestrator/graph/build.py:178-186 | every specialist run belongs to the last plan before it; if that plan is unsure, sensitive or approval was requested, an APPROVE of a plan lies between the two |
| Workflow.EveryRunObeys | src/agent_orchestrator/graph/build.py:611-650 | every run follows the workflow, told from log entries alone: what may come after each entry, for each verdict of a reviewer and each answer of a human, and what each escalation is about |
| Workflow.NotificationsAreOfLowScores | src/agent_orchestrator/graph/build.py:332-342 | a notification comes right after a review that approved, asked for no human and scored below the threshold |
| Workflow.LowScoresNotify | src/agent_orchestrator/graph/build.py:332-342 | between the last review and a synthesis on which no human decided, a human is notified if and only if the review's score is below the threshold |
| Gate.RejectionEndsTheTask | src/agent_orchestrator/graph/build.py:592-597 | after a REJECT only its own bookkeeping and the rejection follow: nothing is run, reviewed, synthesized or delivered |
| Gate.ReplanningStartsClean | src/agent_orchestrator/graph/build.py:152-161 | whenever `plan_task` is entered, results, counters, feedback and review are empty and nothing was ever executed or reviewed; `retry_counts` names exactly the subtasks ever run |
| Gate.RequestIsKept | src/agent_orchestrator/graph/build.py:178-186 | no step drops the caller's request for approval |
| Accounting.RetryAccounting | src/agent_orchestrator/graph/build.py:275-281 | a counter equals the failed runs in the log since the last restart by a human, and is at most max(1, M) plus the redos of that subtask |
| Accounting.CounterPassesTheLimit | src/agent_orchestrator/graph/build.py:203-212 | a step raises a counter past max(1, M) if and only if it runs a subtask that has no result, whose counter is at the limit already, and whose specialist fails |
| Accounting.WorkIsBounded | src/agent_orchestrator/graph/build.py:199-342 | over any run: reviews at most max(1, C) plus MODIFYs of reviewed results; specialist runs at most n * max(1, M) times (max(1, C) plus those MODIFYs plus restarts) |
| Unattended.RunsOfOneSubtask | src/agent_orchestrator/graph/build.py:199-342 | before any human decision a subtask runs at most max(1, M) + max(1, C) - 1 times |
| Unattended.UnattendedWorkIsBounded | src/agent_orchestrator/graph/build.py:199-342 | hence at most n * (max(1, M) + max(1, C) - 1) specialist runs for n distinct ids, and max(1, C) reviews |
| Attained.BoundIsAttained | src/agent_orchestrator/graph/build.py:199-342 | for all limits some run of one subtask attains exactly that number |
| Redo.RedoFrame | src/agent_orchestrator/graph/build.py:344-352 | from a rejecting review to the next, without humans, only plan ids the review named are executed; every other result arrives unchanged and successful |
| Redo.EscalationAfterReview | src/agent_orchestrator/graph/build.py:197-236 | once a review exists the scheduler escalates only over a stuck subtask |
| Redo.EscalationsFollowAFailure | src/agent_orchestrator/graph/build.py:197-236 | over any run, and that subtask's specialist failed in the log after the last review |
| Redo.SynthesisSeesAllSuccesses | src/agent_orchestrator/graph/build.py:385-387 | synthesis sees a fully successful plan if and only if the last work in the log is a review, not a specialist run |
| Redo.GuidanceReachesRedo | src/agent_orchestrator/graph/build.py:569-573 | after a MODIFY of a review that named no subtask, every subtask of the plan carries the human's guidance when the scheduler is reached; of a review that named some, these do if and only if the review had the same text |
| Redo.ModifySendsBack | src/agent_orchestrator/graph/build.py:569-573 | MODIFY of a reviewed result takes back exactly the results the review named, or every subtask's if it named none, and gives exactly these the guidance |
| Redo.FeedbackSendsBack | src/agent_orchestrator/graph/build.py:344-352 | applying a review takes back exactly the results it named, gives these the reviewer's text, and changes nothing else of results and feedback |
| Reruns.NewResultsWereRun | src/agent_orchestrator/graph/build.py:238-281 | a result that was not there before comes from a run of that subtask in between: neither human nor reviewer adds one |
| Reruns.TakenBackIsRunAgain | src/agent_orchestrator/graph/build.py:231-236 | a subtask whose result was taken back after a review is run again before the next review, whatever humans answer on the way |
| Reruns.ModifiedIsRunAgain | src/agent_orchestrator/graph/build.py:569-573 | after a MODIFY of a reviewed result, each named subtask, or every subtask if none was named, is run again before the next review |
| Results.AnswersAreFiled | src/agent_orchestrator/graph/build.py:238-281 | in any reachable super-step each subtask of the batch gets its own specialist's answer and its counter goes up exactly on failure; no other subtask changes |
| Results.ResultsAreFiled | src/agent_orchestrator/graph/build.py:238-281 | in every reachable state each result is filed under its own subtask's id and names a specialist the plan assigns to that id |
| Results.StatusIsLogged | src/agent_orchestrator/graph/build.py:405-430 | a task is completed exactly if its log ends with the delivery, rejected exactly if it ends with the rejection, and running until then |
| Results.SynthesisDelivers | src/agent_orchestrator/graph/build.py:385-421 | two steps after synthesis starts the task is over and completed, its output the synthesized text, its results untouched |
| HumanDecisions.LevelTellsWhatHappened | src/agent_orchestrator/graph/build.py:432-495 | the level is true of the run: APPROVE_PLAN iff nothing was run or reviewed, APPROVE_ACTION iff the last review asked for a human, else TAKE_OVER |
| HumanDecisions.FirstVerdict | src/agent_orchestrator/graph/build.py:191-236 | with no results yet, the scheduler escalates if and only if the plan is not empty and every subtask waits for another |
| HumanDecisions.ReasonsAreTrueUnlessNothingIsLeft | src/agent_orchestrator/graph/build.py:443-493 | over any run, the reason given for an escalation, of whichever of the six sources, is true of the log if and only if it is not the case that nothing was reviewed, no approval is pending and every subtask that can ever be done has been |
| HumanDecisions.StuckSpecialistIsPresentedAs | src/agent_orchestrator/graph/build.py:464-493 | a stuck specialist is presented as one if and only if nothing was reviewed, as a sensitive deliverable (APPROVE_ACTION) if and only if the last review asked for a human, else as an exhausted review |
| HumanDecisions.UnstartablePlanClaimsARequest | src/agent_orchestrator/graph/build.py:457-463 | every such plan that needs no approval is shown to the human as an approval the caller asked for, although nobody did |
| HumanDecisions.RestartDispatchesStuck | src/agent_orchestrator/graph/build.py:563-577 | APPROVE or MODIFY of stuck specialists puts every one of them in the very next batch, counter at zero, guidance attached |
| HumanDecisions.TakeOverFinishesSubtasks | src/agent_orchestrator/graph/build.py:541-554 | TAKE_OVER of stuck subtasks completes each with the human's output and changes no other result |
| HumanDecisions.TakeOverDelivers | src/agent_orchestrator/graph/build.py:555-556 | TAKE_OVER of anything else ends the task, completed, with exactly the human's output |
| Witnesses.FailedRedoReachesHuman | src/agent_orchestrator/graph/build.py:464-476 | a run in which a specialist stuck after a redo is presented as an exhausted review, with no stuck subtask shown |
| Witnesses.FailedRedoLooksSensitive | src/agent_orchestrator/graph/build.py:464-469 | a run in which a specialist stuck after a redo is presented as a sensitive deliverable |
| Witnesses.CounterExceedsTheLimit | src/agent_orchestrator/graph/build.py:203-212 | a run with M = 1 and a counter of 2 |
| Witnesses.DanglingPlanBlamesASpecialist | src/agent_orchestrator/graph/build.py:478-493 | a run in which nothing failed and the human is told that a specialist ran out of retries |
| Witnesses.SynthesisOfAFailedSubtask | src/agent_orchestrator/graph/build.py:464-476 | a run that reaches synthesis with a failed subtask |
| Witnesses.GuidanceIsOverwritten | src/agent_orchestrator/graph/build.py:349-352 | a run in which the human's guidance is lost |
| Witnesses.DuplicateIdsMakeDependentBatch | src/agent_orchestrator/graph/build.py:195-242 | a run that dispatches a batch whose executed subtasks depend on each other |
| RateWindow.SuffixCounts | src/agent_orchestrator/tools/registry.py:31-32 | dropping what left the window keeps the recent count: the deque's length is the number of accepted calls of the whole history in the last minute |
| RateWindow.AdmittedWindowsOk | src/agent_orchestrator/tools/registry.py:28-37 | a history accepted under the rule has at most `limit` calls in every closed 60-second window |
| Registry.RegisteredTool.CheckRateLimit | src/agent_orchestrator/tools/registry.py:28-37 | with a clock that never goes back, a call is accepted iff fewer than `limit` calls of the whole accepted history lie in [now - 60, now]; the deque stays the suffix that matters |
| Registry.ToolRegistry.Register | src/agent_orchestrator/tools/registry.py:63-81 | a taken name is refused and changes nothing, a new one adds a tool with an empty history |
| Registry.ToolRegistry.Invoke | src/agent_orchestrator/tools/registry.py:86-115 | says exactly when each refusal is raised; otherwise the call is logged once, with its own name, inputs and outcome, and joins the tool's history; a refusal leaves log and history alone |
| Registry.RefusalIsNotLogged | src/agent_orchestrator/tools/registry.py:86-93 | a call of a tool nobody registered is refused and the log stays empty |
| Specialists.SpecialistAgent.CallTool | src/agent_orchestrator/agents/specialists.py:141-156 | the slice of the log taken around a call is exactly the entry of that call, there iff the tool is bound, the arguments fit and the registry accepts; the message is the tool's output, or ERROR and the failure |
| Specialists.SpecialistAgent.CallTools | src/agent_orchestrator/agents/specialists.py:141-159 | the calls of a turn are made one after the other on the evolving registry: one message per call in order, with its id and its own outcome, and exactly the accepted calls logged |
| Specialists.SpecialistAgent.ToolLoop | src/agent_orchestrator/agents/specialists.py:134-159 | stops as the model's answers say; each turn adds the model's message and one answer per tool call to the transcript; the model is asked only with every earlier tool call answered; log, registry and usage after exactly those turns |
| Specialists.SpecialistAgent.Conclude | src/agent_orchestrator/agents/specialists.py:160-201 | success iff no call failed and the structured answer parsed; input and output tokens are the sums over exactly the calls that returned; on which transcripts the last calls are made |
| Specialists.SpecialistAgent.Run | src/agent_orchestrator/agents/specialists.py:93-201 | from the two prompts on, the transcript grows by whole turns; the log grows by exactly the result's tool calls, which are those the registry accepted; success, output and both token sums as the model's answers say |
| Transcript.Stop | src/agent_orchestrator/agents/specialists.py:134-140 | the turn that ends the loop: all turns before it returned tool calls, it did not, or it is the limit |
| Transcript.PaidCalls | src/agent_orchestrator/agents/specialists.py:122-140 | the usages summed are those of the loop turns up to the last, the last one if it returned, and the structured call if it was made and returned |
| Dialogue.TurnIsAnswered | src/agent_orchestrator/agents/specialists.py:141-159 | a turn made of a message and one answer per call leaves no tool call unanswered |
| Dialogue.RunIsAccounted | src/agent_orchestrator/tools/registry.py:28-115 | over a run, each tool's history grows by as many calls as the run's log has entries for it |
| Transcript.ForcedTurnLeavesCalls | src/agent_orchestrator/agents/specialists.py:160-180 | with a model that calls a tool in every turn, the structured call is made on a transcript with an unanswered tool call |
| Memory.DedupKeeps | src/agent_orchestrator/memory/long_term.py:185-187 | joining lists without repetition loses and invents nothing |
| Memory.DedupInOrder | src/agent_orchestrator/memory/long_term.py:184-186 | what is left is pairwise distinct and ordered by first occurrence |
| Memory.AbsorbSumsUp | src/agent_orchestrator/memory/long_term.py:185-189 | the merged record knows exactly what the originals of both knew, with their highest importance |
| Memory.MergeKeepsRoots | src/agent_orchestrator/memory/long_term.py:161-196 | one merge keeps a forest: every original has a living root, a living record is its own root |
| Memory.MergeMovesAccesses | src/agent_orchestrator/memory/long_term.py:188 | one merge conserves the accesses of the living records |
| LongTermMemory.MergeKeepsConsolidating | src/agent_orchestrator/memory/long_term.py:180-190 | merging one living record into another keeps everything consolidation promises |
| LongTermMemory.LongTermMemory.AbsorbHits | src/agent_orchestrator/memory/long_term.py:178-190 | the inner loop consumes exactly the close neighbours other than the record itself, for asymmetric or repeated answers |
| LongTermMemory.LongTermMemory.Consolidate | src/agent_orchestrator/memory/long_term.py:161-196 | for any neighbour lists: each record has a surviving root holding exactly its originals' knowledge and highest importance; a survivor that absorbed another has no repetition in its lists and its own entries first; accesses are conserved, the result is the drop in count, other users' records are untouched, only records reported close are merged away and no pair reported close is left |
| LongTermMemory.LongTermMemory.Expire | src/agent_orchestrator/memory/long_term.py:198-220 | removes exactly the records in scope past their grace period and below the minimum, and counts them |
| LongTermMemory.LongTermMemory.Query | src/agent_orchestrator/memory/long_term.py:132-150 | every record found gets one access more and the time of the query and is returned as stored; no other record changes |
| Memory.EffectiveOnlyDecays | src/agent_orchestrator/memory/long_term.py:154-159 | left alone, a record only loses effective importance |
| Memory.AccessNeverLowers | src/agent_orchestrator/memory/long_term.py:147-159 | an access never lowers effective importance, at that moment or later |
| Memory.HalvesPerHalfLife | src/agent_orchestrator/memory/long_term.py:154-159 | a record left alone has half its effective importance one half-life later |
| Memory.BoostIsAFactor | src/agent_orchestrator/memory/long_term.py:154-159 | between two access counts effective importance changes as the boosts do |
| Memory.ExpiryIsCoherent | src/agent_orchestrator/memory/long_term.py:198-220 | expiring at t1 and then at t2 leaves what expiring at t2 alone leaves |
| ApprovalQueue.ApprovalQueue.Submit | src/agent_orchestrator/human_loop/approval_queue.py:33-35 | replaces any older record of the task and keeps the pending set exact |
| ApprovalQueue.ApprovalQueue.ListPending | src/agent_orchestrator/human_loop/approval_queue.py:41-44 | the record of every pending id that has one, once each; exactly the pending records whenever the pending set is exact |
| ApprovalQueue.ApprovalQueue.Resolve | src/agent_orchestrator/human_loop/approval_queue.py:52-61 | an unknown task is an error that changes nothing; otherwise decision, status and time are set, the next poll finds this decision and the task is no longer pending |
| ApprovalQueue.ApprovalQueue.Notify | src/agent_orchestrator/human_loop/approval_queue.py:63-73 | keeps the pending set exact if and only if the task was not waiting |
| ApprovalQueue.ApprovalQueue.AppendMessage | src/agent_orchestrator/human_loop/approval_queue.py:75-81 | adds the message to the record and changes neither status nor decision |
| Escalations.QueueFollowsTheLog | src/agent_orchestrator/human_loop/approval_queue.py:33-98 | over every interleaving of atomic methods: pending is exactly the PENDING records, every record is what the log prescribes, only waiting tasks are pending |
| Escalations.DecisionsAreFresh | src/agent_orchestrator/tracing/recorder.py:128-143 | over every interleaving of atomic methods: every decision a runner resumes with was written by the last resolve, after the very submission it waits on, on a record of that very request, never left over from an earlier escalation |
| Commands.UndisturbedIsAtomic | src/agent_orchestrator/human_loop/approval_queue.py:33-98 | for every interleaving of the single Redis commands, with polls falling anywhere, in which no other client writes to a task inside a method on it, some run of atomic methods has the same runners, log and records, and the same pending set but for the methods under way |
| Commands.UndisturbedIsConsistent | src/agent_orchestrator/human_loop/approval_queue.py:33-98 | such interleavings keep freshness throughout, and between methods the queue is the one the log prescribes |
| Commands.MessageUndoesDecision | src/agent_orchestrator/human_loop/approval_queue.py:75-81 | a chat message read before and written after a resolve: the decision is lost, the runner waits, the task is not listed as pending |
| Commands.StaleDecisionIsUsed | src/agent_orchestrator/human_loop/approval_queue.py:52-61 | a resolve that read one escalation and writes after the next was submitted: the runner resumes with the decision made on the earlier request |
| Commands.LateRemovalHidesTask | src/agent_orchestrator/human_loop/approval_queue.py:52-61 | a resolve whose last command comes after the next submission: the new escalation waits and is not listed |
| TraceStore.TraceStore.FinishTask | src/agent_orchestrator/tracing/store.py:170-208 | closes the row with the aggregate over exactly the task's spans; an unknown task is an error that changes nothing |
| TraceStore.TotalsConcat | src/agent_orchestrator/tracing/store.py:179-186 | aggregates add up over any split of the table |
| TraceStore.TotalsAddUp | src/agent_orchestrator/tracing/store.py:179-186 | column by column: tokens, cost and tool calls of two stretches of the table sum up |
| Recorder.PersistAndExport | src/agent_orchestrator/tracing/recorder.py:24-54 | one span for the event with its summed usage and cost, followed by one per tool call, in order |
| Recorder.EventRows | src/agent_orchestrator/tracing/recorder.py:24-54 | those rows field by field; a tool call's row has the latency the call reported |
| Recorder.PricesAreLinear | src/agent_orchestrator/tracing/pricing.py:13-18 | a million tokens cost what the model's row says, or the fallback's, and prices add up |
| Recorder.EventTotalsAddUp | src/agent_orchestrator/tracing/recorder.py:24-54 | a run's events add up column by column |
| Recorder.RecordNewEvents | src/agent_orchestrator/tracing/recorder.py:117-124 | records exactly the events past the mark, each once |
| Recorder.RecordSession | src/agent_orchestrator/tracing/recorder.py:107-143 | however the trace was cut by interrupts and resumes, the spans are each event once, in order, and the queue holds each escalation answered in turn |
| Recorder.CountEscalations | src/agent_orchestrator/tracing/recorder.py:159-161 | counts the escalation entries of the trace |
| Recorder.RunSpansTotal | src/agent_orchestrator/tracing/store.py:179-186 | the aggregate of a run's spans is the sum over its events' usage and tool calls |
| Recorder.RunTracedTask | src/agent_orchestrator/tracing/recorder.py:93-170 | after any session the stored spans are the run's and the task's row carries the run's totals, its escalation count and the last approval's time; the task's record is the notification if the state holds a NOTIFY, else the last answer, else none; it is not pending once answered, and other tasks' records stay |
| Recorder.ReviewTime | src/agent_orchestrator/tracing/recorder.py:145-151 | the review time read from the queue is the last approval's, and zero without a queue or an interrupt |
| Recorder.LastWaitIsTotal | src/agent_orchestrator/tracing/recorder.py:145-151 | the recorded review time is the time humans really took if and only if the earlier waits add up to nothing |
| Recorder.ReviewTimeOfOneApproval | src/agent_orchestrator/tracing/recorder.py:145-151 | with waits that take time: if and only if there was at most one interrupt, and too little otherwise |
| Sessions.RunsAreSessions | src/agent_orchestrator/tracing/recorder.py:107-161 | every complete run of the graph, cut where an invocation returns, is a session for the recorder with one interrupt per human decision, and the escalation count of the row is the number of decisions consumed |
| Sessions.NotificationReachesTheQueue | src/agent_orchestrator/tracing/recorder.py:152-153 | the last result of a complete run holds a NOTIFY if and only if the run's log shows a notification |
| Sessions.TwoApprovalsCountOnce | src/agent_orchestrator/tracing/recorder.py:145-151 | for all limits, a run of the graph with two interrupts whose row shows half of the time humans took |
| Sessions.EscalationsByName | src/agent_orchestrator/tracing/recorder.py:159-161 | counting trace entries by node name finds exactly the escalation steps |

## Left out

- Prompt texts, model routing and structured-output parsing: answers are arbitrary inputs of the right type; a raising supervisor or reviewer, which aborts the invocation, is not modelled.
- `memory_context`: it only reaches prompts, and a plan is an arbitrary answer, so a MODIFY of a plan changes nothing else.
- Working memory and the memory extraction at delivery: no routing decision reads them.
- The Celery path of `run_specialist`: the same result computed in another process.
- LangGraph itself: checkpoints, replay and its recursion limit; only super-steps, reducers and interrupt/resume are modelled.
- Insertion order of dictionaries: they are maps, the stuck ids shown to a human are a set; only the order of `by_id` matters and is kept.
- The reason and context payload of an escalation apart from its stuck ids.
- Termination under endless human decisions: a stretch between interrupts is bounded, the number of interrupts is up to the humans.
- Serial.ParallelBatchIsSerializable: compares results and counters; the log's order of branches differs between orders, as it does in the source.
- Registry.ToolRegistry.Invoke: latencies in log entries and threads sharing a registry are not modelled.
- Specialists.SpecialistAgent.Run: `last_usage` takes its final value only; the values it holds between calls live in a local, and the confidence of the answer is dropped.
- Specialists.SpecialistAgent.CallTool: the texts of refusals are shortened; each still starts with ERROR.
- LongTermMemory.LongTermMemory.Consolidate: the fetched record objects are entries of a map that the loops update; embeddings and distances are arbitrary, and the neighbours reported belong to the user's records.
- LongTermMemory.LongTermMemory.Query: ids and metadata come as one list of distinct ids of the collection; ranking is the database's.
- LongTermMemory.LongTermMemory.Expire: a half-life of zero, on which the source divides by zero, is excluded.
- Memory.EffectiveOnlyDecays: numbers are reals, and `0.5 ** x` and `1 + log1p(n)` are any monotone non-negative curves.
- Adding and deleting memories, and the conversion of records to and from metadata.
- Escalations.DecisionsAreFresh: each queue method is one atomic step here; `Commands` takes the methods apart into their Redis commands and says what remains. The polling loop of `wait_for_decision` is the repeated Poll move, without its timeout.
- Escalations.QueueFollowsTheLog: atomic methods, likewise.
- Commands.UndisturbedIsConsistent: a sufficient condition, task by task; which other disturbed interleavings happen to do no harm is not characterised.
- Recorder.RunTracedTask: span attributes, OpenTelemetry export and the command-line prompt; the id is assumed new to the store and the queue, as a fresh uuid is, and while the runner waits the queue sees only the human's answer to this task (other clients are in `Escalations` and `Commands`).
- `run_task`, the web API, the user interface, configuration and the built-in tools.
