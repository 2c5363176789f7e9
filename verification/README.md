# Governed delivery workflow: a verified model

This project models the core of a service that turns a request into a grounded plan, waits for a human decision,
and executes one simulated delivery ticket. It proves what the code promises about that path: safety under any
interleaving and crash of the service calls, and correctness of the ranking, the evaluation gate, the policy engine,
the request normalisation and the rate limiter. `dafny verify dfyconfig.toml` checks everything.

## How it is built

- `Prelude.dfy`, `Domain.dfy`: the workflow aggregate, its lifecycle functions, proposals, approvals and tasks; the
  invariant `Sound` of every stored workflow; the evolution order `Evolves`.
- `Adapters.dfy`: the repository, the queue and the executor, once as classes changed in place and once as the
  functions those classes are proved against. Every adapter method holds one lock, so it is one atomic step.
- `Protocol.dfy`: the service calls as programs with a program counter and a local snapshot. `Accept` starts a call,
  `Resume` takes its next atomic adapter step or clock reading, `Crash` drops it. A run is any sequence of these
  events. `RunToEnd` and `Serve` are the same programs without interruption.
- `Invariants.dfy`, `Guarantees.dfy`: a rely/guarantee proof. `Rely` is all that other calls may do meanwhile,
  `CallOk` is what a call knows at its program counter; each step keeps the first and is not disturbed by it.
- `Runs.dfy`, `Agreement.dfy`, `Answers.dfy`, `Timestamps.dfy`, `Provenance.dfy`, `Oversight.dfy`, `Fulfilment.dfy`,
  `Punctuality.dfy`, `Stranding.dfy`, `Reachability.dfy`: the theorems over whole runs. `Sequential.dfy`,
  `Draining.dfy`, `Delivery.dfy`, `Refusals.dfy`: calls served alone. `Paths.dfy` shows that a request served alone is a piece of a run; `Interruption.dfy` is the piece in which a
  worker crashes after storing its verdict.
- `Service.dfy`: the service class, statement by statement, each method proved equal to the uninterrupted program.
- `Governance.dfy`, `Requests.dfy`, `Knowledge.dfy`, `Planning.dfy`, `RateLimiter.dfy`: the remaining components. A
  limiter call, too, is two steps: it reads the clock, and later it gets the lock.

Assumptions, all visible as parameters or preconditions: ids for new workflows are fresh; tasks given to a worker are
of the form `create_execution_task` makes; digests, including the truncated task id, are free of collisions, so they
are constructors over what they digest; policy, classifier, runtime, pattern scan, content hash, tokeniser and provider
are arbitrary functions unless a lemma says otherwise; the clock may return anything except where a lemma asks for a
clock that never runs backwards (the limiter's, which is monotonic, never does). Relevance scores count fifths, so 5
stands for 1.0; workflow times are whole seconds and limiter times are real numbers.

## What the proofs found

- **A crash can strand the queue for good.** `service.py` stores an expiry (line 373) before it acknowledges the task
  (line 374). A worker that stops between the two leaves an expired workflow with a waiting task; every later delivery
  is refused at lines 403-404 without acknowledgement, and since claiming starts at the oldest waiting task, nothing
  behind it is ever handed out by `process_next_task` again. `Reachability.StrandingIsReached` is such a run,
  `Stranding.StrandedForever` and `Stranding.StrandedQueueServesNobody` the consequence. No other crash strands a task:
  `Stranding.ForsakenExactlyWhenAbandoned` and `Stranding.QuietQueueDrains` are equivalences, for runs with any crashes.
- **The rate limiter's 2L - 1 does not survive concurrency.** `allow` reads the clock (line 142 of `operational.py`)
  before it takes the lock (line 143), so a call can be overtaken and be counted in a later window than the one its
  reading belongs to. Calls that wait up to k window lengths for the lock get up to (k + 2)(L - 1) + 1 requests with
  readings in an interval of one window allowed, and some run attains this (`RateLimiter.ExactSlidingBound`); 2L - 1
  holds in all runs exactly when nobody waits or L is 1 (`RateLimiter.TwiceTheLimitExactlyWhen`), and
  `RateLimiter.WaitingBreaksTheBound` is a run with L = 2 that allows four. It also holds for a subject whose calls
  happen to be served in the order of their readings.
- **An effect can be recorded after its approval ran out.** The state model document says `executing` requires an
  unexpired approval. The code checks that when execution starts (`Runs.EffectsAreAuthorised`); a resumed `executing`
  workflow is not checked again. `Reachability.LateRecordIsReached` is a run with such a record: a worker crashes after it
  began in time, and the next one comes late. `Punctuality.LateExactlyWhenResumedLate` says when a worker makes a late
  record, and `Punctuality.LateRecordsWereResumed` that in any run no record is late for another reason.
- The documented states `failed` and `cancelled` are never reached; histories of runs go through all others
  (`Reachability.VisitedExactlyWhen`).
- The gate looks passages up by id and the last one wins, so two unflagged passages with one id and different hashes
  make it block: `Planning.PlanSucceedsExactlyWhen` has this as a condition.

## Model

| member | source | states |
|---|---|---|
| Runs.EveryRunIsOk | services/api/src/agentic_api/service.py:72-417 | in every interleaving with crashes, every reachable state satisfies the invariants of store, keys, queue, executor and every in-flight call |
| Runs.RunsOnlyEvolve | services/api/src/agentic_api/domain.py:97-207 | along any run histories and governance decisions only gain suffixes, identity and request never change, plan and proposal are set once, an approval only gains its consumption once, terminal workflows never change; keys, tasks, acknowledgements and records are only added |
| Runs.StepsAreSequential | services/api/src/agentic_api/adapters.py:48-86 | each step of any interleaving changes the stored workflows by nothing, one new received workflow, or one legal lifecycle action on the current value of one workflow |
| Runs.UpdateAppliesToCurrent | services/api/src/agentic_api/adapters.py:78-86 | equal versions mean equal values: the version check passes exactly when the snapshot is the stored value, and then the call's action is performed on it; otherwise nothing changes |
| Runs.AtMostOneEffect | services/api/src/agentic_api/adapters.py:187-212 | under duplicate claims, concurrent workers and crashes a workflow has at most one execution record, it never changes, and a completed workflow reports exactly it |
| Runs.RecordsAreUnique | services/api/src/agentic_api/service.py:406-408 | in any well-formed state records are unique per workflow and completed results are records |
| Runs.ConflictsNeverHappen | services/api/src/agentic_api/adapters.py:150-155 | the conflict branches of queue and executor are unreachable for calls of the service |
| Runs.EffectsAreAuthorised | services/api/src/agentic_api/service.py:265-316 | every execution record belongs to a workflow approved by someone other than its owner, with equal digests in proposal, approval, queued task, key and record and three allowing decisions, whose execution began within 15 minutes of the decision and 30 of the proposal, for any clock; its ticket carries the arguments of that workflow's plan |
| Provenance.EverythingWasAskedFor | services/api/src/agentic_api/service.py:72-330 | in every interleaving with crashes, each stored workflow, plan and decision goes back to an earlier request in the run by someone entitled to make it |
| Oversight.EverythingIsOverseen | services/api/src/agentic_api/service.py:95-121 | in any run each stored workflow goes back to an intake that was asked for: the decisions on record are the policy's answers for intake, local planning and local execution of the profile the classifier gave to its text and declarations, each of which allowed the stage, and its plan is the runtime's answer for it |
| Oversight.StoredDataWasDeclared | services/api/src/agentic_api/service.py:100-118 | under the enforced baseline the profile kept with a stored workflow holds whatever its creator declared or a rule detects, and neither credentials nor card data |
| Oversight.StoredDecisionsCarryControls | packages/governance-core/src/agentic_governance/policy.py:48-60 | every decision on record carries the controls exactly when something other than general content and contact information was declared or is detected |
| Fulfilment.EverySuccessFulfils | services/api/src/agentic_api/service.py:72-417 | in any run every success is what its request asked for: the owner's normalised text, a plan of that workflow, a decision under that key with that verdict, a completed workflow with its record, for a given task with that proposal |
| Fulfilment.EverythingWasGiven | services/api/src/agentic_api/service.py:332-417 | in any run every call in flight goes back to an entitled request, and every execution record, completion, start and acknowledgement to a processing call by an operator or administrator that was handed this task, or to a task given directly |
| Fulfilment.AttemptsAreDeliveries | services/api/src/agentic_api/adapters.py:160-169 | in any run the delivery attempts counted on a task are exactly the processing calls, by those who may make them, that were handed it |
| Refusals.CreationIsRefusedExactlyWhen | services/api/src/agentic_api/service.py:86-129 | creation fails for want of a role, for another overlay set, on the policy's denial, or on a conflicting key, each exactly then and in this order, and changes nothing when it fails |
| Refusals.IntakeIsDeniedExactlyWhen | services/api/src/agentic_api/service.py:100-118 | under the enforced baseline an entitled creator is denied exactly when credentials or card data are declared or detected |
| Refusals.PlanningIsRefusedExactlyWhen | services/api/src/agentic_api/service.py:163-203 | others than the owner and administrators are told that there is no workflow, a planned workflow is returned as it is, and the policy's denial of local planning is final |
| Refusals.DecisionIsRefusedExactlyWhen | services/api/src/agentic_api/service.py:251-293 | who may decide, and that a decided workflow answers only its own key and verdict: another key is an invalid state, another verdict a conflict, and neither changes anything |
| Refusals.ProcessingIsRefusedExactlyWhen | services/api/src/agentic_api/service.py:335-347 | processing is denied exactly to those who are neither operator nor administrator, and nothing changes then |
| Refusals.TaskIsRefusedExactlyWhen | services/api/src/agentic_api/service.py:349-405 | a task is carried out only for an approved, executing or completed workflow and the proposal approved for it; otherwise which error it ends with, and that nothing changes |
| Answers.AnswersAreTrue | services/api/src/agentic_api/service.py:72-417 | whatever a call of any run returns is true of the state it leaves: a returned workflow is the one asked for and a present or earlier value of it, a worker's success is the completed workflow as stored, a reported expiry is a fact, and no pending task means none waits |
| Runs.EnqueuedWorkStaysClaimable | services/api/src/agentic_api/adapters.py:147-173 | a task once enqueued stays claimable while its workflow is approved or executing, crashes or not; an acknowledged task means a completed or expired workflow |
| Runs.ReplayedDecisionRestoresTask | services/api/src/agentic_api/service.py:275-289 | if the enqueue was lost, deciding again with the recorded key appends exactly the missing task; if not, nothing changes at all; either way the work is claimable |
| Runs.KeysNameOneWorkflow | services/api/src/agentic_api/adapters.py:56-72 | owner-scoped keys and stored workflows correspond one to one, for the rest of every run |
| Runs.UsedKeyReplays | services/api/src/agentic_api/adapters.py:59-69 | a used key returns the workflow as it now is if normalised request and lower-cased locale match, and conflicts otherwise; nothing changes |
| Runs.UnusedKeyCreates | services/api/src/agentic_api/service.py:95-137 | an unused key stores exactly one new received workflow with the normalised request |
| Runs.CreateThenReplay | services/api/src/agentic_api/service.py:72-137 | after any activity in between, a replay gets the first workflow exactly when both requests have the same words and the same locale up to case |
| Prelude.LowerEqualsUpToCase | services/api/src/agentic_api/service.py:124 | locales lower-case alike exactly when they differ at most in the case of ASCII letters |
| Agreement.CarefulRunsAgree | services/api/src/agentic_api/service.py:315-417 | as long as no crash stops the only call about to supply something the shared state owes a workflow, whatever is owed is about to be supplied |
| Agreement.StepKeepsAgreement | services/api/src/agentic_api/service.py:315-417 | an event breaks that agreement exactly when it is such a crash |
| Agreement.QuiescentAgreement | services/api/src/agentic_api/service.py:283-417 | in runs without such a crash, crash-free ones among them, with nothing in flight: nothing executes, exactly the approved workflows have a claimable task, exactly the completed ones have a record |
| Timestamps.HistoriesAreChronological | services/api/src/agentic_api/domain.py:97-207 | under a clock that never runs backwards every stored history is in chronological order and ends no later than now |
| Timestamps.HistoriesAreDocumented | specs/design/workflow-state-model.md:25-50 | every stored history of every run starts at received, is linked, ends at the status, uses documented edges only, has the length its status fixes, names the actor of each state and begins at the creation time |
| Sequential.OneRunRecovers | services/api/src/agentic_api/service.py:349-417 | from every reachable state one undisturbed worker ends a claimable approved or executing workflow in completed or, only past the approval's expiry, expired, reusing any record already made |
| Sequential.WorkerAlone | services/api/src/agentic_api/service.py:349-417 | what an undisturbed worker does, for each status its task's workflow can have |
| Sequential.RunToEndIsOk | services/api/src/agentic_api/service.py:349-417 | every call run alone keeps the invariants and only evolves the shared state |
| Draining.ProcessingTheHead | services/api/src/agentic_api/service.py:332-347 | one processing call settles and removes the oldest waiting task with one delivery and touches nothing else, unless its workflow already expired: then it fails and the task stays |
| Draining.DrainsInOrder | services/api/src/agentic_api/adapters.py:160-173 | n calls settle the first n waiting tasks in order, one delivery each, as long as no expired workflow waits among them |
| Draining.DrainsExactlyWhenNothingExpiredWaits | services/api/src/agentic_api/service.py:403-404 | as many calls as tasks empty the queue if and only if no waiting task belongs to an expired workflow |
| Draining.ExpiredHeadBlocks | services/api/src/agentic_api/service.py:403-404 | once an expired workflow heads the queue every processing call made alone fails and the queue stays as it is |
| Stranding.QuietQueueDrains | services/api/src/agentic_api/service.py:332-417 | at any quiet moment of any run with any crashes, as many calls as waiting tasks empty the queue if and only if no crash hit a worker between recording an expiry and acknowledging a task in the queue; then each call settles one task, in order, with one delivery |
| Stranding.ForsakenExactlyWhenAbandoned | services/api/src/agentic_api/service.py:370-374 | in any run, the task of an expired, once approved workflow is unacknowledged with nobody about to acknowledge it exactly when such a crash happened |
| Stranding.ReportsAlwaysFit | services/api/src/agentic_api/service.py:349-374 | in any run, a call about to acknowledge reports an expiry exactly for an expired workflow, at most one call does for each, and only before its task is acknowledged |
| Stranding.CrashAfterExpiryStrands | services/api/src/agentic_api/service.py:370-374 | from any quiet state, five events that strand the task of an approved workflow: claim, read, judge expired, store the expiry, crash |
| Stranding.StrandingLasts | services/api/src/agentic_api/service.py:403-409 | no step of any call, nor a crash, frees a stranded task |
| Stranding.StrandedForever | services/api/src/agentic_api/adapters.py:160-173 | a stranded task heads the queue for the rest of the run |
| Stranding.StrandedQueueServesNobody | services/api/src/agentic_api/adapters.py:162-168 | from then on, in any interleaving, every processing call is handed that task, and each step of a worker that holds it changes nothing and fails or leaves it bound to fail |
| Stranding.DoomedFails | services/api/src/agentic_api/service.py:349-404 | a worker on the task of an expired workflow fails within two steps and changes nothing |
| Stranding.StrandedQueueStays | services/api/src/agentic_api/service.py:332-347 | any number of processing calls made alone fail and leave store and queue order as they were |
| Interruption.WorkerIsInterrupted | services/api/src/agentic_api/service.py:349-405 | the run piece in which a worker claims the head, judges it, stores that it begins or expires, and crashes |
| Punctuality.LateExactlyWhenResumedLate | services/api/src/agentic_api/service.py:368-406 | an undisturbed worker makes a record later than the approval's expiry exactly when it resumes an execution already begun after that expiry; a record it makes carries its own clock reading |
| Punctuality.LateRecordsWereResumed | services/api/src/agentic_api/service.py:368-406 | in any run a record's time is the reading of a worker's judgement, and if it is late that worker resumed an execution begun before |
| Punctuality.RecordCanBeLate | services/api/src/agentic_api/service.py:399-406 | from any quiet state with an approved head, a continuation whose record is later than its approval's expiry |
| Reachability.VisitedExactlyWhen | specs/design/workflow-state-model.md:25-50 | some run's history goes through a documented state exactly when it is neither failed nor cancelled |
| Reachability.StoredStatusesAreReached | services/api/src/agentic_api/domain.py:61-207 | for each status the code stores, with both ways to expire, a run that ends with a workflow in it |
| Reachability.StrandingIsReached | services/api/src/agentic_api/service.py:370-374 | a run from the empty system whose last event is that crash and leaves the queue stranded |
| Reachability.LateRecordIsReached | services/api/src/agentic_api/service.py:399-406 | a run from the empty system to a completed workflow with a record later than its approval's expiry |
| Reachability.DefaultServicesFit | services/agent-runtime/src/agentic_runtime/provider.py:20-56 | the services built on the enforced baseline policy and the default planning runtime take any request there |
| Guarantees.ResumeGuarantees | services/api/src/agentic_api/service.py:129-417 | each atomic step of each call keeps the shared invariants, stays within the rely condition and establishes what the call knows next |
| Guarantees.AcceptGuarantees | services/api/src/agentic_api/service.py:72-347 | the same for starting a call |
| Guarantees.ExecuteGuarantees | services/api/src/agentic_api/adapters.py:187-212 | for a worker's task the executor never refuses, and returns the record it keeps under the task's key |
| Invariants.CallStable | services/api/src/agentic_api/service.py:229-408 | what a call knows survives everything the other calls can do |
| Invariants.GraphRunsAllNodes | services/agent-runtime/src/agentic_runtime/graph.py:62-78 | a service built on the planning graph meets the one assumption made of its runtime |
| Protocol.ResumeAdvances | services/api/src/agentic_api/service.py:72-417 | every step brings its call strictly closer to its end, so calls cannot loop |
| Delivery.RequestsAreDelivered | services/api/src/agentic_api/service.py:72-417 | from any well-formed state with n unexpired waiting tasks, an accepted request that is planned, approved by another before its proposal expires and reached by the (n + 1)-st processing call before the approval does ends completed, with its plan, its words and one execution record, and the queue is empty |
| Delivery.PlanningAlone | services/api/src/agentic_api/service.py:163-238 | planning a received workflow alone stores the runtime's plan and the proposal made of it, and a blocked plan changes nothing |
| Delivery.DecidingAlone | services/api/src/agentic_api/service.py:240-330 | deciding alone expires a late proposal, records the decision otherwise, and queues one task exactly for an approval |
| Paths.ServingIsAPath | services/api/src/agentic_api/service.py:72-417 | a request served alone is a path of the interleaving model that disturbs no other call, so every whole-run theorem covers the service methods |
| Paths.FinishingIsAPath | services/api/src/agentic_api/service.py:72-417 | the same for finishing a call already begun |
| Delivery.InTimeMeansCompleted | services/api/src/agentic_api/service.py:349-417 | processing an approved head no later than its approval's expiry always succeeds |
| Service.WorkflowService.Create | services/api/src/agentic_api/service.py:72-137 | the method, run alone, is the modelled create program |
| Service.WorkflowService.Plan | services/api/src/agentic_api/service.py:163-238 | the method, run alone, is the modelled plan program, with two clock readings |
| Service.WorkflowService.DecideApproval | services/api/src/agentic_api/service.py:240-330 | the method, run alone, is the modelled decision program |
| Service.WorkflowService.ProcessNextTask | services/api/src/agentic_api/service.py:332-347 | the method, run alone, is the modelled processing program |
| Service.WorkflowService.ExecuteTask | services/api/src/agentic_api/service.py:349-417 | the method, run alone, is the modelled worker program |
| Service.WorkflowService.Finish | services/api/src/agentic_api/service.py:406-417 | the effect, the completion and the acknowledgement, as the modelled program has them |
| Domain.ApplyPlanningResult | services/api/src/agentic_api/domain.py:97-141 | the loop appends one linked transition per completed state and one to awaiting approval |
| Domain.ActionsKeepSound | services/api/src/agentic_api/domain.py:97-207 | every lifecycle action keeps history, version, bound parts and governance record of a workflow in order |
| Domain.ActionsEvolve | services/api/src/agentic_api/domain.py:97-207 | every lifecycle action is append-only and strictly raises the version, which the repository itself does not enforce |
| Domain.EvolutionComposes | services/api/src/agentic_api/domain.py:97-207 | append-only evolution is transitive |
| Domain.ReceivedIsSound | services/api/src/agentic_api/domain.py:61-95 | a received workflow starts with a sound history |
| Domain.DecisionIdentifiersIdentify | services/api/src/agentic_api/execution.py:109-117 | decision identifiers agree exactly for the same verdict, key, proposal and reviewer |
| Domain.SoundHistoryIsDocumented | specs/design/workflow-state-model.md:25-50 | a sound history follows the documented graph and has version 1, 9, 10, 11 or 13 as its status says |
| Adapters.InMemoryWorkflowRepository.Create | services/api/src/agentic_api/adapters.py:56-72 | creation by owner-scoped key, in place |
| Adapters.InMemoryWorkflowRepository.Get | services/api/src/agentic_api/adapters.py:74-76 | lookup by id |
| Adapters.InMemoryWorkflowRepository.Update | services/api/src/agentic_api/adapters.py:78-86 | version-checked replacement, in place |
| Adapters.InMemoryTaskQueue.Enqueue | services/api/src/agentic_api/adapters.py:147-158 | idempotent enqueue in first-come order |
| Adapters.InMemoryTaskQueue.ClaimNext | services/api/src/agentic_api/adapters.py:160-169 | the scan delivers the first waiting task with one more attempt, and reserves nothing |
| Adapters.InMemoryTaskQueue.Complete | services/api/src/agentic_api/adapters.py:171-173 | acknowledgement of an id |
| Adapters.SimulatedTicketExecutor.Execute | services/api/src/agentic_api/adapters.py:187-212 | one record per key, returned again on repetition |
| Adapters.EnqueueingAgain | services/api/src/agentic_api/adapters.py:147-158 | under a known id the first task stands, and another proposal is a conflict |
| Adapters.ExecutingAgain | services/api/src/agentic_api/adapters.py:187-212 | under a known key the first record stands whatever the time, and another proposal is a conflict |
| Adapters.UpdatingNeedsTheVersion | services/api/src/agentic_api/adapters.py:78-86 | an update is accepted exactly for the expected version of a stored workflow and changes only that workflow |
| RateLimiter.InMemoryRateLimiter.Allow | services/api/src/agentic_api/operational.py:143-151 | the windows and the answer after what a call does under the lock, given the reading it took before |
| RateLimiter.RunsAreConsistent | services/api/src/agentic_api/operational.py:141-151 | in any interleaving of clock readings and locked updates the windows and answers are those of the served calls in serving order, and no served call has a reading later by more than the longest wait than a call served after it |
| RateLimiter.EveryOrderHappens | services/api/src/agentic_api/operational.py:142-143 | conversely, every serving order with that property comes from some interleaving under a clock that never runs backwards |
| RateLimiter.SharedLimiterProjects | services/api/src/agentic_api/operational.py:139-151 | in any serving order the shared window map behaves, for each subject, as a limiter of its own on that subject's calls |
| RateLimiter.WindowsInEveryOrder | services/api/src/agentic_api/operational.py:143-151 | in any serving order windows open at least one length apart, everything before one lies before it, and each allows between one and L requests, all before its end |
| RateLimiter.RefusalsAreJustified | services/api/src/agentic_api/operational.py:148-149 | in any serving order a refusal means that the subject's stored window is less than one window old and counts L, and that exactly L requests of that subject were allowed since it was opened |
| RateLimiter.NearlyOrderedBound | services/api/src/agentic_api/operational.py:141-151 | if no reading is overtaken by more than k window lengths, an interval of one window holds at most (k + 2)(L - 1) + 1 allowed requests |
| RateLimiter.SlidingIntervalBound | services/api/src/agentic_api/operational.py:126-151 | the same for every interleaving in which calls wait at most that long for the lock, and 2L - 1 for a subject served in the order of its readings |
| RateLimiter.BoundIsAttained | services/api/src/agentic_api/operational.py:141-151 | for every limit, window and wait some run attains the bound |
| RateLimiter.ExactSlidingBound | services/api/src/agentic_api/operational.py:141-151 | a number bounds the allowed requests in every interval of every run exactly when it is at least (k + 2)(L - 1) + 1 |
| RateLimiter.TwiceTheLimitExactlyWhen | services/api/src/agentic_api/operational.py:142-143 | 2L - 1 bounds every run exactly when calls never wait for the lock or L is 1 |
| RateLimiter.WaitingBreaksTheBound | services/api/src/agentic_api/operational.py:142-143 | a run with L = 2 and a wait of a fifth of a second that allows four requests in one window's length |
| Knowledge.LocalKnowledgeRetriever.Retrieve | services/agent-runtime/src/agentic_runtime/knowledge.py:95-107 | the loop, the sort and the slice compute the specified batch |
| Knowledge.LocalKnowledgeRetriever.RetrievesTheTop | services/agent-runtime/src/agentic_runtime/knowledge.py:95-107 | results are sorted by capped score then id, have positive scores, and nothing left out outranks anything returned |
| Knowledge.LocalKnowledgeRetriever.RetrievesAsManyAsAsked | services/agent-runtime/src/agentic_runtime/knowledge.py:104-107 | the result is as long as the bound and the scoring documents allow; a negative bound drops that many |
| Knowledge.ScoresCountSharedWords | services/agent-runtime/src/agentic_runtime/knowledge.py:96-105 | a returned passage scores a fifth for each word of the query in its text or tags, three for the category's tag and one for the general tag, five at most; with room for all, exactly the documents with any of these are returned |
| Knowledge.SharingMoreComesFirst | services/agent-runtime/src/agentic_runtime/knowledge.py:99-106 | of two documents with equal bonus the one sharing more words is returned with the other, before it |
| Knowledge.RetrievalIgnoresCorpusOrder | services/agent-runtime/src/agentic_runtime/knowledge.py:106-107 | with distinct ids any permutation of the corpus gives the same result |
| Knowledge.RankSorts | services/agent-runtime/src/agentic_runtime/knowledge.py:106 | ranking is a sorted permutation |
| Knowledge.RankIsStable | services/agent-runtime/src/agentic_runtime/knowledge.py:106 | passages with the same sort key keep their order |
| Planning.FilterRetrieval | services/agent-runtime/src/agentic_runtime/guardrails.py:34-44 | the loop fills the safe passages and the quarantined ids |
| Planning.FilterPartitions | services/agent-runtime/src/agentic_runtime/guardrails.py:34-44 | safe and quarantined passages interleave to the batch: nothing lost, repeated or reordered |
| Planning.GatePassesWhenEveryCheckDoes | services/agent-runtime/src/agentic_runtime/evaluation.py:24-54 | the score reaches the threshold exactly when all five checks pass |
| Planning.ChecksByName | services/agent-runtime/src/agentic_runtime/evaluation.py:24-46 | what each of the five checks stands for, in terms of the proposal, the unflagged passages and the scan |
| Planning.PlanSucceedsExactlyWhen | services/agent-runtime/src/agentic_runtime/graph.py:84-204 | for any provider, retriever, scan and hash: the exact conditions under which a plan is returned |
| Planning.ReturnedPlanIsSound | services/agent-runtime/src/agentic_runtime/graph.py:121-182 | a returned plan reports an order-preserving partition of the batch, cites exactly the unflagged passages with document, hash and score, quotes one of them, passes all checks and completed all seven nodes |
| Planning.ReturnedPlanIsClassified | services/agent-runtime/src/agentic_runtime/graph.py:88-111 | a returned plan's category is the one its request's words call for, in the order of precedence, its complexity follows category and size, and its evidence and proposal were made for that classification |
| Planning.ReturnedPlanIsUnflagged | services/agent-runtime/src/agentic_runtime/guardrails.py:46-48 | for a scan whose findings survive joining with spaces, no summary, step or risk of a returned plan is flagged |
| Planning.DefaultPlanFitsItsCategory | services/agent-runtime/src/agentic_runtime/provider.py:20-56 | a default plan opens with its category's step, then quotes the passage of its first citation, and has the classified complexity |
| Planning.TaggedDocumentTopsTheBatch | services/agent-runtime/src/agentic_runtime/knowledge.py:99-107 | a document with the category's tag puts at least three fifths at the top of any corpus's result |
| Planning.LocalCorpusAlwaysAnswers | services/agent-runtime/src/agentic_runtime/knowledge.py:43-78 | the local corpus has a tagged document for every category |
| Planning.DefaultRuntimeFailsOnlyOnFlaggedText | services/agent-runtime/src/agentic_runtime/provider.py:20-56 | with the default parts a plan fails only on flagged input or flagged output |
| Governance.Highest | packages/governance-core/src/agentic_governance/classifier.py:72-75 | the maximum level over the categories |
| Governance.Classify | packages/governance-core/src/agentic_governance/classifier.py:59-80 | the loop collects declared and detected categories, defaults to general content, and takes the highest level |
| Governance.BaselinePolicyEngine.Evaluate | packages/governance-core/src/agentic_governance/policy.py:28-95 | the branches compute the baseline decision; counting obligations tests sensitivity |
| Governance.DeclaringMoreNeverWeakens | packages/governance-core/src/agentic_governance/policy.py:28-95 | declaring more never lowers the level, drops an obligation, weakens an outcome, shortens control or newly allows processing |
| Governance.OnlyTheDefaultCategoryDisappears | packages/governance-core/src/agentic_governance/classifier.py:62-70 | exactly when declaring more loses a category, and that it can only be the default one |
| Governance.LevelsByName | packages/governance-core/src/agentic_governance/classifier.py:39-57 | the level of a profile by the names of its categories |
| Governance.BasisByName | packages/governance-core/src/agentic_governance/classifier.py:62-70 | the basis names exactly what was declared, what a rule detects, and the default when there is nothing |
| Governance.DenialsAreExplained | packages/governance-core/src/agentic_governance/policy.py:36-73 | each reason is given exactly when it applies, and denial means one of the two that deny |
| Governance.IdentifiersIdentify | packages/governance-core/src/agentic_governance/policy.py:74-84 | decision identifiers agree exactly for the same mode and context |
| Governance.SensitiveDataIsControlled | packages/governance-core/src/agentic_governance/policy.py:48-73 | declared or detected categories other than general content and contact information bring the six controls and short retention, by name, and nothing else does; they never leave for an unapproved provider with a permit |
| Governance.ModeOnlyGatesDenials | packages/governance-core/src/agentic_governance/policy.py:73 | the mode changes only whether a denial is enforced; reasons are never empty |
| Governance.LaterStagesAreNeverDenied | packages/governance-core/src/agentic_governance/policy.py:37-47 | planning and tool execution of any stored context are allowed |
| Governance.EnforcedIntakeAdmits | packages/governance-core/src/agentic_governance/policy.py:38-44 | enforced intake admits exactly what holds neither credentials nor card data |
| Requests.NormalizeJoinsWords | services/api/src/agentic_api/service.py:95 | normalising is joining the words with single spaces |
| Requests.SameNormalFormMeansSameWords | services/api/src/agentic_api/service.py:95 | two requests normalise alike exactly when they have the same words |
| Requests.NormalizeIsIdempotent | services/api/src/agentic_api/service.py:95 | normalising twice is normalising once |
| Requests.SpacesByCodePoint | services/api/src/agentic_api/service.py:95 | which characters are whitespace |
| Requests.AnySpaceSeparates | services/api/src/agentic_api/service.py:95 | any of them between two words becomes one space |

## Left out

- The HTTP layer, authentication, headers and response mapping: plumbing over libraries; principals and parsed inputs are given.
- The audit sink, telemetry, readiness, settings, golden-set evaluator, web console and infrastructure: only easy members.
- `redact_sensitive`: a structural recursion with no link to the protocol.
- `WorkflowService.get`: a read with an access check that changes nothing.
- SHA-256, JSON canonicalisation and the truncation of digests: idealised as collision-free constructors.
- Regular expressions and tokenisation: arbitrary functions of the text; the corpus is assumed unflagged where a lemma says so.
- Constant fields (schema hash, tenant, purpose, model policy, versions, guardrail texts, classification reason, token estimates, correlation ids): carried unchanged by the code.
- Tuples sorted before they are stored (categories, detection basis, obligations) are sets in the model.
- Case folding outside ASCII: `Prelude.Lower` maps only A to Z.
- Tasks given to the public worker entry point that were not made by `create_execution_task`: they could acknowledge or name other work, so a run does not contain them.
- Graph checkpointing: the graph is the fixed composition of its seven nodes.
- Two processes with separate memory: the adapters are process-local, and so is the model.
