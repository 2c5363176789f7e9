/** The service calls as programs over the shared adapters, one atomic adapter step or clock reading at a time. */
module Protocol {
  import opened Prelude
  import opened Domain
  import opened Adapters
  import Governance
  import Planning
  import Requests

  datatype World = World(store: Store, queue: Queue, executions: Executions)

  ghost predicate Bound(w: World) {
    w.store.Bound() && w.queue.Bound()
  }

  const EMPTY_WORLD := World(Store(map[], map[]), Queue(map[], [], {}), map[])

  /** The ports a service is built on besides the adapters. Any functions will do. */
  datatype Services = Services(
    policy: Governance.PolicyEngine,
    classify: (string, set<Governance.DataCategory>) -> Governance.DataProfile,
    plan: Planning.PlanningInput -> Result<Planning.PlanningResult, Planning.PlanError>)

  datatype Request =
    | CreateWorkflow(principal: Principal, request: string, requestedLocale: string, key: string,
                     declared: set<Governance.DataCategory>, jurisdiction: string, overlayIds: seq<string>)
    | PlanWorkflow(principal: Principal, workflowId: string)
    | DecideApproval(principal: Principal, workflowId: string, verdict: Verdict, reason: string, key: string)
    | ProcessNextTask(principal: Principal)
    | ExecuteTask(task: ExecutionTask)

  type Outcome = Result<Workflow, Error>

  /** A workflow about to be stored; its id is drawn when it is. */
  datatype Draft = Draft(
    ownerId: string, request: string, requestedLocale: string,
    context: Governance.ProcessingContext, decision: Governance.PolicyDecision, createdAt: Time)

  /** The task a worker holds, with the proposal it read for it. */
  datatype Work = Work(task: ExecutionTask, proposal: ToolActionProposal)

  /** An in-flight call: where it stands and what it has read so far. */
  datatype Call =
    | Creating(draft: Draft, key: string)
    | Proposing(snapshot: Workflow, result: Planning.PlanningResult, decision: Governance.PolicyDecision)
    | Applying(snapshot: Workflow, result: Planning.PlanningResult, decision: Governance.PolicyDecision,
               proposal: ToolActionProposal)
    | Deciding(snapshot: Workflow, proposal: ToolActionProposal, reviewerId: string, verdict: Verdict,
               reason: string, key: string)
    | Storing(snapshot: Workflow, action: Action, next: Workflow, held: Option<Work>)
    | Enqueueing(task: ExecutionTask, stored: Workflow)
    | Claimed(task: ExecutionTask)
    | Judging(work: Work, snapshot: Workflow, approval: ApprovalDecision)
    | Running(work: Work, snapshot: Workflow, now: Time)
    | Acknowledging(task: ExecutionTask, outcome: Outcome)

  datatype Progress = Continue(call: Call) | Return(outcome: Outcome)

  const COMMON_OVERLAY := "common-us-baseline"

  /** The clock reading and the fresh id a step draws on, if it needs one. */
  datatype Input = Input(now: Time, freshId: string)

  // ----- Starting a call -----

  /** A request up to and including its first access to shared state. */
  function Accept(env: Services, w: World, request: Request, now: Time): (World, Progress)
    requires Bound(w)
  {
    match request
    case CreateWorkflow(_, _, _, _, _, _, _) => (w, AcceptCreate(env, request, now))
    case PlanWorkflow(principal, id) => (w, AcceptPlan(env, w.store, principal, id))
    case DecideApproval(_, _, _, _, _) => (w, AcceptDecide(w.store, request))
    case ProcessNextTask(principal) =>
      if principal.roles * {Operator, Administrator} == {} then (w, Return(Err(PermissionDenied)))
      else
        var (queue, task) := w.queue.Claimed();
        (w.(queue := queue), if task.None? then Return(Err(NoPendingTask)) else Continue(Claimed(task.value)))
    case ExecuteTask(task) => (w, Continue(Claimed(task)))
  }

  function AcceptCreate(env: Services, r: Request, now: Time): Progress
    requires r.CreateWorkflow?
  {
    if r.principal.roles * {Requester, Administrator} == {} then Return(Err(PermissionDenied))
    else if (set id | id in r.overlayIds) != {COMMON_OVERLAY} then Return(Err(ComplianceOverlayUnavailable))
    else
      var normalized := Requests.Normalize(r.request);
      var profile := env.classify(normalized, r.declared);
      var context := Governance.ProcessingContext(
                       r.principal.subject, Governance.WorkflowIntake, Governance.LOCAL_API, r.jurisdiction,
                       profile, r.overlayIds);
      var decision := env.policy(context);
      if !decision.executionAllowed then Return(Err(DataProcessingDenied))
      else
        Continue(Creating(
                   Draft(r.principal.subject, normalized, Lower(r.requestedLocale), context, decision, now),
                   r.key))
  }

  function AcceptPlan(env: Services, store: Store, principal: Principal, id: string): Progress {
    if id !in store.workflows
       || (store.workflows[id].ownerId != principal.subject && Administrator !in principal.roles)
    then Return(Err(WorkflowNotFound))
    else
      var w := store.workflows[id];
      if w.planningResult.Some? then Return(Ok(w))
      else if w.status != Received then Return(Err(InvalidWorkflowState))
      else
        var decision := env.policy(LocalContext(w.processingContext, Governance.AgentPlanning));
        if !decision.executionAllowed then Return(Err(DataProcessingDenied))
        else
          match env.plan(Planning.PlanningInput(w.workflowId, w.ownerId, w.request, w.requestedLocale))
          case Err(PromptInjectionBlocked) => Return(Err(PromptInjectionRejected))
          case Err(EvaluationGateBlocked(_)) => Return(Err(EvaluationGateRejected))
          case Ok(result) => Continue(Proposing(w, result, decision))
  }

  function AcceptDecide(store: Store, r: Request): Progress
    requires r.DecideApproval?
  {
    if r.principal.roles * {Reviewer, Administrator} == {} then Return(Err(PermissionDenied))
    else if r.workflowId !in store.workflows then Return(Err(WorkflowNotFound))
    else
      var w := store.workflows[r.workflowId];
      if w.ownerId == r.principal.subject then Return(Err(PermissionDenied))
      else if w.approvalDecision.Some? then
        var existing := w.approvalDecision.value;
        if existing.idempotencyKey != r.key then Return(Err(InvalidWorkflowState))
        else if existing.verdict != r.verdict then Return(Err(IdempotencyConflict))
        else if r.verdict == Approve && w.actionProposal.Some? then
          Continue(Enqueueing(CreateExecutionTask(w.workflowId, w.actionProposal.value.proposalDigest), w))
        else Return(Ok(w))
      else if w.status != AwaitingApproval || w.actionProposal.None? then Return(Err(InvalidWorkflowState))
      else Continue(Deciding(w, w.actionProposal.value, r.principal.subject, r.verdict, r.reason, r.key))
  }

  // ----- Continuing a call -----

  /** The next step of an in-flight call. */
  function Resume(env: Services, w: World, call: Call, input: Input): (World, Progress)
    requires Bound(w)
  {
    match call
    case Creating(d, key) =>
      var created := Receive(input.freshId, d.ownerId, d.request, d.requestedLocale, d.context, d.decision, d.createdAt);
      var (store, r) := w.store.Created(created, key);
      (w.(store := store), Return(r))
    case Proposing(snapshot, result, decision) =>
      (w, Continue(Applying(snapshot, result, decision, CreateToolProposal(snapshot.workflowId, result, input.now))))
    case Applying(snapshot, result, decision, proposal) =>
      (w, Continue(Storing(snapshot, Action.Plan(result, decision, proposal, input.now),
                           AppliedPlan(snapshot, result, decision, proposal, input.now), None)))
    case Deciding(_, _, _, _, _, _) => (w, Continue(AfterDeciding(call, input.now)))
    case Storing(snapshot, action, next, work) =>
      var (store, r) := w.store.Updated(next, snapshot.stateVersion);
      (w.(store := store), if r.Err? then Return(r) else AfterStoring(action, next, work))
    case Enqueueing(task, stored) =>
      var (queue, r) := w.queue.Enqueued(task);
      (w.(queue := queue), Return(if r.Err? then Err(r.error) else Ok(stored)))
    case Claimed(task) => (w, AfterClaim(w.store, task))
    case Judging(work, snapshot, approval) => (w, AfterJudging(env, call, input.now))
    case Running(work, snapshot, now) =>
      var (executions, r) := Executed(w.executions, work.task, work.proposal, now);
      (w.(executions := executions), if r.Err? then Return(Err(r.error)) else AfterRunning(call, r.value))
    case Acknowledging(task, outcome) =>
      (w.(queue := w.queue.Acknowledged(task.taskId)), Return(outcome))
  }

  /** The clock reading of the deciding person decides between expiry and a recorded decision. */
  function AfterDeciding(call: Call, now: Time): Call
    requires call.Deciding?
  {
    var w := call.snapshot;
    if now > call.proposal.expiresAt then Storing(w, LetExpire(now), Expire(w, now), None)
    else
      var approval := CreateApprovalDecision(call.proposal, call.reviewerId, call.verdict, call.reason, call.key, now);
      Storing(w, Decide(approval, now), RecordApproval(w, approval, now),
              if call.verdict == Approve
              then Some(Work(CreateExecutionTask(w.workflowId, call.proposal.proposalDigest), call.proposal))
              else None)
  }

  function AfterStoring(action: Action, next: Workflow, work: Option<Work>): Progress {
    match (action, work)
    case (Decide(_, _), Some(held)) => Continue(Enqueueing(held.task, next))
    case (LetExpire(_), Some(held)) => Continue(Acknowledging(held.task, Err(ApprovalExpired)))
    case (LetExpire(_), None) => Return(Err(ApprovalExpired))
    case (Begin(_, _, at), Some(held)) => Continue(Running(held, next, at))
    case (Complete(_, _), Some(held)) => Continue(Acknowledging(held.task, Ok(next)))
    case _ => Return(Ok(next))
  }

  function AfterClaim(store: Store, task: ExecutionTask): Progress {
    if task.workflowId !in store.workflows then Return(Err(WorkflowNotFound))
    else
      var w := store.workflows[task.workflowId];
      if w.status == Completed && w.executionResult.Some? then
        if w.executionResult.value.proposalDigest != task.proposalDigest then Return(Err(IdempotencyConflict))
        else Continue(Acknowledging(task, Ok(w)))
      else if w.actionProposal.None? || w.approvalDecision.None? then Return(Err(InvalidWorkflowState))
      else
        var proposal, approval := w.actionProposal.value, w.approvalDecision.value;
        if proposal.proposalDigest != task.proposalDigest || approval.proposalDigest != task.proposalDigest
        then Return(Err(InvalidWorkflowState))
        else Continue(Judging(Work(task, proposal), w, approval))
  }

  /** The worker's clock reading: expire, start, carry on with started work, or refuse. */
  function AfterJudging(env: Services, call: Call, now: Time): Progress
    requires call.Judging?
  {
    var w := call.snapshot;
    if w.status == Approved then
      if now > call.approval.expiresAt then Continue(Storing(w, LetExpire(now), Expire(w, now), Some(call.work)))
      else
        var context := LocalContext(w.processingContext, Governance.ToolExecution);
        var decision := env.policy(context);
        if !decision.executionAllowed then Return(Err(DataProcessingDenied))
        else
          Continue(Storing(w, Action.Begin(decision, context, now), BeginExecution(w, decision, context, now),
                           Some(call.work)))
    else if w.status == Executing then Continue(Running(call.work, w, now))
    else Return(Err(InvalidWorkflowState))
  }

  function AfterRunning(call: Call, record: ToolExecutionResult): Progress
    requires call.Running?
  {
    match CompleteExecution(call.snapshot, record, call.now)
    case Err(e) => Return(Err(e))
    case Ok(next) => Continue(Storing(call.snapshot, Complete(record, call.now), next, Some(call.work)))
  }

  /** An upper bound on the steps a call has left. */
  function Rank(call: Call): nat {
    match call
    case Proposing(_, _, _) => 3
    case Applying(_, _, _, _) => 2
    case Deciding(_, _, _, _, _, _) => 3
    case Storing(_, action, _, work) => if action.Begin? then 4 else if work.Some? then 2 else 1
    case Claimed(_) => 6
    case Judging(_, _, _) => 5
    case Running(_, _, _) => 3
    case _ => 1
  }

  /** Steps keep the adapters well formed and bring the call closer to its end. */
  lemma ResumeAdvances(env: Services, w: World, call: Call, input: Input)
    requires Bound(w)
    ensures Bound(Resume(env, w, call, input).0)
    ensures Resume(env, w, call, input).1.Continue? ==> Rank(Resume(env, w, call, input).1.call) < Rank(call)
  {
  }

  lemma AcceptKeepsBound(env: Services, w: World, request: Request, now: Time)
    requires Bound(w)
    ensures Bound(Accept(env, w, request, now).0)
  {
  }

  // ----- Running without interruption -----

  /** The rest of a call when nothing else runs meanwhile. The clock may be read twice while planning. */
  function RunToEnd(env: Services, w: World, call: Call, input: Input, later: Time): (r: (World, Outcome))
    requires Bound(w)
    ensures Bound(r.0)
    decreases Rank(call)
  {
    ResumeAdvances(env, w, call, if call.Applying? then input.(now := later) else input);
    var (w', progress) := Resume(env, w, call, if call.Applying? then input.(now := later) else input);
    match progress
    case Continue(next) => RunToEnd(env, w', next, input, later)
    case Return(outcome) => (w', outcome)
  }

  /** A whole request served alone. */
  function Serve(env: Services, w: World, request: Request, input: Input, later: Time): (r: (World, Outcome))
    requires Bound(w)
    ensures Bound(r.0)
  {
    AcceptKeepsBound(env, w, request, input.now);
    var (w', progress) := Accept(env, w, request, input.now);
    match progress
    case Continue(call) => RunToEnd(env, w', call, input, later)
    case Return(outcome) => (w', outcome)
  }

  // ----- Interleaving -----

  /** All shared state, the calls in flight, and the clock. */
  datatype State = State(world: World, calls: map<nat, Call>, clock: Time)

  datatype Event =
    | Start(id: nat, request: Request, now: Time)
    | Step(id: nat, input: Input)
    | Crash(id: nat)

  /** Nothing stored, nothing running, at any time of day. */
  predicate Initial(s: State) {
    s.world == EMPTY_WORLD && s.calls == map[]
  }

  /** A task as `CreateExecutionTask` makes it, for whatever workflow and digest. */
  predicate WellFormedTask(task: ExecutionTask) {
    task == CreateExecutionTask(task.workflowId, task.proposalDigest).(deliveryAttempt := task.deliveryAttempt)
  }

  /** Ids drawn for new workflows are fresh and tasks handed to a worker are well formed;
      otherwise any call may take its next step at any time. */
  predicate Possible(s: State, e: Event) {
    match e
    case Start(id, request, _) => id !in s.calls && (request.ExecuteTask? ==> WellFormedTask(request.task))
    case Step(id, input) => id in s.calls && (s.calls[id].Creating? ==> input.freshId !in s.world.store.workflows)
    case Crash(id) => id in s.calls
  }

  function Settle(calls: map<nat, Call>, id: nat, progress: Progress): map<nat, Call> {
    match progress
    case Continue(call) => calls[id := call]
    case Return(_) => calls - {id}
  }

  function Next(env: Services, s: State, e: Event): State
    requires Bound(s.world) && Possible(s, e)
  {
    match e
    case Start(id, request, now) =>
      var (world, progress) := Accept(env, s.world, request, now);
      State(world, Settle(s.calls, id, progress), now)
    case Step(id, input) =>
      var (world, progress) := Resume(env, s.world, s.calls[id], input);
      State(world, Settle(s.calls, id, progress), input.now)
    case Crash(id) => s.(calls := s.calls - {id})
  }

  /** A run of the system: any events, in any order, as long as each is possible. */
  ghost predicate IsRun(env: Services, states: seq<State>, events: seq<Event>) {
    && |states| == |events| + 1
    && Initial(states[0])
    && forall i :: 0 <= i < |events| ==> IsStep(env, states[i], events[i], states[i + 1])
  }

  ghost predicate IsStep(env: Services, s: State, e: Event, s': State) {
    Bound(s.world) && Possible(s, e) && s' == Next(env, s, e)
  }
}
