/** The workflow aggregate, its lifecycle, and the proposals, approvals and tasks bound to it. */
module Domain {
  import opened Prelude
  import Governance
  import Planning

  datatype Role = Requester | Reviewer | Operator | Administrator

  datatype Principal = Principal(subject: string, roles: set<Role>)

  datatype ActorType = User | System | Human | Worker

  datatype StateTransition = StateTransition(previous: Option<Status>, current: Status, at: Time, actor: ActorType)

  // ----- Bound contracts. Digests are idealised: equal digests mean equal digested values. -----

  datatype TicketArguments = TicketArguments(
    workflowId: string, title: string, complexity: Planning.Complexity, deliverySteps: seq<string>)

  datatype Digest = ActionDigest(arguments: TicketArguments)

  datatype Verdict = Approve | Reject

  datatype DecisionDigest = DecisionDigest(verdict: Verdict, idempotencyKey: string, proposal: Digest, reviewerId: string)

  datatype TaskId = TaskId(workflowId: string)

  datatype ExecutionKey = TicketKey(workflowId: string, proposal: Digest)

  datatype ToolActionProposal = ToolActionProposal(
    arguments: TicketArguments, proposalDigest: Digest, expiresAt: Time)

  datatype ApprovalDecision = ApprovalDecision(
    decisionId: DecisionDigest,
    verdict: Verdict,
    reviewerId: string,
    reason: string,
    decidedAt: Time,
    expiresAt: Time,
    proposalDigest: Digest,
    idempotencyKey: string,
    consumedAt: Option<Time>)

  datatype ExecutionTask = ExecutionTask(
    taskId: TaskId,
    workflowId: string,
    proposalDigest: Digest,
    idempotencyKey: ExecutionKey,
    deliveryAttempt: nat)

  /** The execution and ticket identifiers are digests of the key and the proposal digest. */
  datatype ToolExecutionResult = ToolExecutionResult(
    executionId: (ExecutionKey, Digest),
    executedAt: Time,
    idempotencyKey: ExecutionKey,
    proposalDigest: Digest)

  const PROPOSAL_LIFETIME: Time := 30 * 60
  const APPROVAL_LIFETIME: Time := 15 * 60

  function CreateToolProposal(workflowId: string, result: Planning.PlanningResult, now: Time): ToolActionProposal {
    var arguments := TicketArguments(
                       workflowId, result.proposal.summary, result.proposal.complexity, result.proposal.deliverySteps);
    ToolActionProposal(arguments, ActionDigest(arguments), now + PROPOSAL_LIFETIME)
  }

  function CreateApprovalDecision(proposal: ToolActionProposal, reviewerId: string, verdict: Verdict,
                                  reason: string, idempotencyKey: string, now: Time): ApprovalDecision
  {
    ApprovalDecision(
      DecisionDigest(verdict, idempotencyKey, proposal.proposalDigest, reviewerId),
      verdict, reviewerId, reason, now,
      if proposal.expiresAt < now + APPROVAL_LIFETIME then proposal.expiresAt else now + APPROVAL_LIFETIME,
      proposal.proposalDigest, idempotencyKey, None)
  }

  /** Decisions agree in their identifier exactly when they agree in verdict, key, proposal and reviewer. */
  lemma DecisionIdentifiersIdentify(p: ToolActionProposal, q: ToolActionProposal, a: string, b: string, v: Verdict,
                                    w: Verdict, reason: string, because: string, k: string, l: string, s: Time, t: Time)
    ensures CreateApprovalDecision(p, a, v, reason, k, s).decisionId
            == CreateApprovalDecision(q, b, w, because, l, t).decisionId
            <==> p.proposalDigest == q.proposalDigest && a == b && v == w && k == l
  {
  }

  function CreateExecutionTask(workflowId: string, proposalDigest: Digest): ExecutionTask {
    ExecutionTask(TaskId(workflowId), workflowId, proposalDigest, TicketKey(workflowId, proposalDigest), 0)
  }

  datatype Error =
    | WorkflowNotFound
    | InvalidWorkflowState
    | IdempotencyConflict
    | PermissionDenied
    | ApprovalExpired
    | NoPendingTask
    | DataProcessingDenied
    | PromptInjectionRejected
    | EvaluationGateRejected
    | ComplianceOverlayUnavailable
    | ApprovalMissing

  // ----- The aggregate -----

  datatype Workflow = Workflow(
    workflowId: string,
    ownerId: string,
    request: string,
    requestedLocale: string,
    status: Status,
    stateVersion: nat,
    createdAt: Time,
    transitions: seq<StateTransition>,
    processingContext: Governance.ProcessingContext,
    governanceDecisions: seq<Governance.PolicyDecision>,
    planningResult: Option<Planning.PlanningResult>,
    actionProposal: Option<ToolActionProposal>,
    approvalDecision: Option<ApprovalDecision>,
    executionResult: Option<ToolExecutionResult>)

  function Receive(workflowId: string, ownerId: string, request: string, requestedLocale: string,
                   context: Governance.ProcessingContext, decision: Governance.PolicyDecision, now: Time): Workflow
  {
    Workflow(workflowId, ownerId, request, requestedLocale, Received, 1, now,
             [StateTransition(None, Received, now, User)], context, [decision], None, None, None, None)
  }

  /** The history that visits `states` one after the other, coming from `previous`. */
  function Visiting(previous: Status, states: seq<Status>, now: Time): seq<StateTransition> {
    seq(|states|, i requires 0 <= i < |states| =>
          StateTransition(Some(if i == 0 then previous else states[i - 1]), states[i], now, System))
  }

  function LocalContext(context: Governance.ProcessingContext, operation: Governance.ProcessingOperation)
    : Governance.ProcessingContext
  {
    context.(operation := operation, provider := Governance.DETERMINISTIC_LOCAL)
  }

  function AppliedPlan(w: Workflow, result: Planning.PlanningResult, decision: Governance.PolicyDecision,
                       proposal: ToolActionProposal, now: Time): Workflow
  {
    w.(status := AwaitingApproval,
       stateVersion := w.stateVersion + |result.completedStates| + 1,
       transitions := w.transitions + Visiting(w.status, result.completedStates + [AwaitingApproval], now),
       planningResult := Some(result),
       processingContext := LocalContext(w.processingContext, Governance.AgentPlanning),
       governanceDecisions := w.governanceDecisions + [decision],
       actionProposal := Some(proposal))
  }

  method ApplyPlanningResult(w: Workflow, result: Planning.PlanningResult, decision: Governance.PolicyDecision,
                             proposal: ToolActionProposal, now: Time) returns (v: Workflow)
    ensures v == AppliedPlan(w, result, decision, proposal, now)
  {
    var previous := w.status;
    var transitions := w.transitions;
    ghost var states := result.completedStates;
    for i := 0 to |result.completedStates|
      invariant transitions == w.transitions + Visiting(w.status, states[..i], now)
      invariant previous == if i == 0 then w.status else states[i - 1]
    {
      transitions := transitions + [StateTransition(Some(previous), result.completedStates[i], now, System)];
      previous := result.completedStates[i];
    }
    transitions := transitions + [StateTransition(Some(previous), AwaitingApproval, now, System)];
    assert transitions == w.transitions + Visiting(w.status, states + [AwaitingApproval], now);
    v := w.(status := AwaitingApproval,
            stateVersion := w.stateVersion + |result.completedStates| + 1,
            transitions := transitions,
            planningResult := Some(result),
            processingContext := LocalContext(w.processingContext, Governance.AgentPlanning),
            governanceDecisions := w.governanceDecisions + [decision],
            actionProposal := Some(proposal));
  }

  function Moved(w: Workflow, status: Status, now: Time, actor: ActorType): Workflow {
    w.(status := status,
       stateVersion := w.stateVersion + 1,
       transitions := w.transitions + [StateTransition(Some(w.status), status, now, actor)])
  }

  function StatusOf(verdict: Verdict): Status {
    match verdict
    case Approve => Approved
    case Reject => Rejected
  }

  function RecordApproval(w: Workflow, approval: ApprovalDecision, now: Time): Workflow {
    Moved(w, StatusOf(approval.verdict), now, Human).(approvalDecision := Some(approval))
  }

  function Expire(w: Workflow, now: Time): Workflow {
    Moved(w, Expired, now, System)
  }

  function BeginExecution(w: Workflow, decision: Governance.PolicyDecision, context: Governance.ProcessingContext,
                          now: Time): Workflow
  {
    Moved(w, Executing, now, Worker).(
      processingContext := context,
      governanceDecisions := w.governanceDecisions + [decision])
  }

  function CompleteExecution(w: Workflow, result: ToolExecutionResult, now: Time): Result<Workflow, Error> {
    if w.approvalDecision.None? then Err(ApprovalMissing)
    else
      Ok(w.(status := Completed,
            stateVersion := w.stateVersion + 2,
            transitions := w.transitions + [StateTransition(Some(w.status), Evaluating, now, System),
                                            StateTransition(Some(Evaluating), Completed, now, System)],
            approvalDecision := Some(w.approvalDecision.value.(consumedAt := Some(now))),
            executionResult := Some(result)))
  }

  // ----- The sequential lifecycle: the only changes a stored workflow may go through -----

  datatype Action =
    | Plan(result: Planning.PlanningResult, decision: Governance.PolicyDecision, proposal: ToolActionProposal, at: Time)
    | Decide(approval: ApprovalDecision, at: Time)
    | LetExpire(at: Time)
    | Begin(decision: Governance.PolicyDecision, context: Governance.ProcessingContext, at: Time)
    | Complete(record: ToolExecutionResult, at: Time)

  /** What must hold of the current workflow for an action to be a legal next step. */
  ghost predicate Enabled(w: Workflow, action: Action) {
    match action
    case Plan(result, decision, proposal, at) =>
      && w.status == Received
      && decision.executionAllowed
      && result.completedStates == Planning.NODES
      && proposal == CreateToolProposal(w.workflowId, result, proposal.expiresAt - PROPOSAL_LIFETIME)
    case Decide(approval, at) =>
      && w.status == AwaitingApproval
      && w.actionProposal.Some?
      && approval == CreateApprovalDecision(w.actionProposal.value, approval.reviewerId, approval.verdict,
                                            approval.reason, approval.idempotencyKey, at)
      && approval.reviewerId != w.ownerId
      && at <= w.actionProposal.value.expiresAt
    case LetExpire(at) =>
      || (w.status == AwaitingApproval && w.actionProposal.Some? && at > w.actionProposal.value.expiresAt)
      || (w.status == Approved && w.approvalDecision.Some? && at > w.approvalDecision.value.expiresAt)
    case Begin(decision, context, at) =>
      && w.status == Approved
      && w.approvalDecision.Some?
      && at <= w.approvalDecision.value.expiresAt
      && decision.executionAllowed
      && context == LocalContext(w.processingContext, Governance.ToolExecution)
    case Complete(record, at) =>
      && w.status == Executing
      && w.approvalDecision.Some?
      && w.actionProposal.Some?
      && record.proposalDigest == w.actionProposal.value.proposalDigest
      && record.idempotencyKey == TicketKey(w.workflowId, record.proposalDigest)
  }

  ghost function Apply(w: Workflow, action: Action): Workflow
    requires Enabled(w, action)
  {
    match action
    case Plan(result, decision, proposal, at) => AppliedPlan(w, result, decision, proposal, at)
    case Decide(approval, at) => RecordApproval(w, approval, at)
    case LetExpire(at) => Expire(w, at)
    case Begin(decision, context, at) => BeginExecution(w, decision, context, at)
    case Complete(record, at) => CompleteExecution(w, record, at).value
  }

  // ----- What every stored workflow satisfies -----

  /** The states up to the proposal: `received`, the seven nodes, `awaiting_approval`. */
  function PlannedPath(): (path: seq<Status>)
    ensures |path| == 9 && path[0] == Received && path[8] == AwaitingApproval
  {
    [Received] + Planning.NODES + [AwaitingApproval]
  }

  /** The states a workflow has been through, which its status and the presence of an approval determine. */
  function PathOf(w: Workflow): seq<Status> {
    match w.status
    case Received => [Received]
    case AwaitingApproval => PlannedPath()
    case Approved => PlannedPath() + [Approved]
    case Rejected => PlannedPath() + [Rejected]
    case Expired => PlannedPath() + if w.approvalDecision.Some? then [Approved, Expired] else [Expired]
    case Executing => PlannedPath() + [Approved, Executing]
    case Completed => PlannedPath() + [Approved, Executing, Evaluating, Completed]
    case _ => []
  }

  /** Who may bring a workflow into a state. */
  function ActorOf(status: Status): ActorType {
    match status
    case Received => User
    case Approved => Human
    case Rejected => Human
    case Executing => Worker
    case _ => System
  }

  /** The version, the recorded states, the chain of previous states and the actors all follow the path. */
  ghost predicate FollowsPath(w: Workflow) {
    && w.stateVersion == |w.transitions| > 0 && w.transitions[0].at == w.createdAt
    && Along(w.transitions, PathOf(w))
  }

  /** A history that visits the states of a path one after the other, each entered by whoever may. */
  ghost predicate Along(ts: seq<StateTransition>, path: seq<Status>) {
    |ts| == |path| && forall i :: 0 <= i < |ts| ==> Enters(ts[i], path, i)
  }

  predicate Enters(t: StateTransition, path: seq<Status>, i: nat)
    requires i < |path|
  {
    && t.current == path[i] && t.actor == ActorOf(path[i])
    && t.previous == if i == 0 then None else Some(path[i - 1])
  }

  /** The proposal is the one its planning result yields for this workflow. */
  ghost predicate Proposed(w: Workflow) {
    && w.planningResult.Some? && w.actionProposal.Some?
    && w.actionProposal.value
       == CreateToolProposal(w.workflowId, w.planningResult.value, w.actionProposal.value.expiresAt - PROPOSAL_LIFETIME)
  }

  /** The approval is a decision by someone else on this very proposal, taken before the proposal expired. */
  ghost predicate DecidedByAnother(w: Workflow, verdict: Verdict) {
    && w.approvalDecision.Some? && w.actionProposal.Some?
    && var a := w.approvalDecision.value;
       && a.verdict == verdict
       && a.reviewerId != w.ownerId
       && a.proposalDigest == w.actionProposal.value.proposalDigest
       && a.expiresAt <= a.decidedAt + APPROVAL_LIFETIME
       && a.expiresAt <= w.actionProposal.value.expiresAt
       && a.decidedAt <= w.actionProposal.value.expiresAt
       && |w.transitions| > DECIDED_AT && w.transitions[DECIDED_AT].at == a.decidedAt
  }

  /** Where on the path the decision and the start of execution are found. */
  const DECIDED_AT := 9
  const STARTED_AT := 10

  /** The transition to `executing` was stamped before the approval ran out. */
  ghost predicate StartedInTime(w: Workflow) {
    && w.approvalDecision.Some? && |w.transitions| > STARTED_AT
    && w.transitions[STARTED_AT].current == Executing
    && w.transitions[STARTED_AT].at <= w.approvalDecision.value.expiresAt
  }

  ghost predicate HasParts(w: Workflow) {
    match w.status
    case Received => w.planningResult.None? && w.actionProposal.None? && w.approvalDecision.None? && w.executionResult.None?
    case AwaitingApproval => Proposed(w) && w.approvalDecision.None? && w.executionResult.None?
    case Approved =>
      Proposed(w) && DecidedByAnother(w, Approve) && w.approvalDecision.value.consumedAt.None? && w.executionResult.None?
    case Rejected =>
      Proposed(w) && DecidedByAnother(w, Reject) && w.approvalDecision.value.consumedAt.None? && w.executionResult.None?
    case Expired =>
      && Proposed(w) && w.executionResult.None?
      && (w.approvalDecision.Some? ==> DecidedByAnother(w, Approve) && w.approvalDecision.value.consumedAt.None?)
    case Executing =>
      && Proposed(w) && DecidedByAnother(w, Approve) && StartedInTime(w)
      && w.approvalDecision.value.consumedAt.None? && w.executionResult.None?
    case Completed =>
      && Proposed(w) && DecidedByAnother(w, Approve) && StartedInTime(w)
      && w.approvalDecision.value.consumedAt == Some(w.transitions[|w.transitions| - 1].at)
      && w.executionResult.Some?
      && w.executionResult.value.proposalDigest == w.actionProposal.value.proposalDigest
      && w.executionResult.value.idempotencyKey == TicketKey(w.workflowId, w.actionProposal.value.proposalDigest)
    case _ => false
  }

  function StageOf(status: Status): Governance.ProcessingOperation {
    match status
    case Received => Governance.WorkflowIntake
    case Executing => Governance.ToolExecution
    case Completed => Governance.ToolExecution
    case _ => Governance.AgentPlanning
  }

  /** Every processing stage so far has its own decision on record, and each of them allowed the processing. */
  ghost predicate Governed(w: Workflow) {
    && w.processingContext.operation == StageOf(w.status)
    && (w.status != Received ==> w.processingContext.provider == Governance.DETERMINISTIC_LOCAL)
    && |w.governanceDecisions| == (match StageOf(w.status)
                                   case WorkflowIntake => 1
                                   case AgentPlanning => 2
                                   case _ => 3)
    && forall i :: 0 <= i < |w.governanceDecisions| ==> w.governanceDecisions[i].executionAllowed
  }

  ghost predicate Sound(w: Workflow) {
    FollowsPath(w) && HasParts(w) && Governed(w)
  }

  lemma ReceivedIsSound(workflowId: string, ownerId: string, request: string, locale: string,
                        context: Governance.ProcessingContext, decision: Governance.PolicyDecision, now: Time)
    requires context.operation == Governance.WorkflowIntake && decision.executionAllowed
    ensures Sound(Receive(workflowId, ownerId, request, locale, context, decision, now))
  {
  }

  /** Appending transitions to the next states on the path keeps the history in step with the path. */
  lemma AlongExtends(ts: seq<StateTransition>, path: seq<Status>, added: seq<StateTransition>, more: seq<Status>)
    requires Along(ts, path) && path != [] && |added| == |more|
    requires forall i :: 0 <= i < |added| ==> Enters(added[i], [path[|path| - 1]] + more, i + 1)
    ensures Along(ts + added, path + more)
  {
    var n := |ts|;
    forall i | 0 <= i < n + |added| ensures Enters((ts + added)[i], path + more, i) {
      if i < n {
        assert Enters(ts[i], path, i);
      } else {
        assert Enters(added[i - n], [path[n - 1]] + more, i - n + 1);
      }
    }
  }

  lemma StepAlongPath(w: Workflow, v: Workflow, more: seq<Status>, added: seq<StateTransition>)
    requires FollowsPath(w) && |PathOf(w)| > 0 && w.status == PathOf(w)[|PathOf(w)| - 1]
    requires PathOf(v) == PathOf(w) + more
    requires v.stateVersion == w.stateVersion + |more| && v.createdAt == w.createdAt
    requires v.transitions == w.transitions + added && |added| == |more|
    requires forall i :: 0 <= i < |added| ==> Enters(added[i], [w.status] + more, i + 1)
    ensures FollowsPath(v)
  {
    hide PathOf, Along, Enters;
    AlongExtends(w.transitions, PathOf(w), added, more);
  }

  lemma PlanFollowsPath(w: Workflow, action: Action)
    requires Sound(w) && Enabled(w, action) && action.Plan?
    ensures FollowsPath(Apply(w, action))
  {
    hide FollowsPath, PlannedPath, HasParts, Governed, ActorOf;
    var more := Planning.NODES + [AwaitingApproval];
    PlannedPathIs();
    TheSystemPlans();
    StepAlongPath(w, Apply(w, action), more, Visiting(Received, more, action.at));
  }

  lemma MoveFollowsPath(w: Workflow, v: Workflow, status: Status, at: Time, actor: ActorType)
    requires FollowsPath(w) && |PathOf(w)| > 0 && w.status == PathOf(w)[|PathOf(w)| - 1]
    requires PathOf(v) == PathOf(w) + [status]
    requires v.transitions == Moved(w, status, at, actor).transitions && v.stateVersion == w.stateVersion + 1
    requires actor == ActorOf(status) && v.createdAt == w.createdAt
    ensures FollowsPath(v)
  {
    hide FollowsPath, PlannedPath, PathOf;
    StepAlongPath(w, v, [status], [StateTransition(Some(w.status), status, at, actor)]);
  }

  lemma CompletionFollowsPath(w: Workflow, action: Action)
    requires Sound(w) && Enabled(w, action) && action.Complete?
    ensures FollowsPath(Apply(w, action))
  {
    hide FollowsPath, PlannedPath, HasParts, Governed;
    var v := Apply(w, action);
    assert PathOf(v) == PathOf(w) + [Evaluating, Completed];
    StepAlongPath(w, v, [Evaluating, Completed],
                  [StateTransition(Some(w.status), Evaluating, action.at, System),
                   StateTransition(Some(Evaluating), Completed, action.at, System)]);
  }

  lemma ActionsFollowPath(w: Workflow, action: Action)
    requires Sound(w) && Enabled(w, action)
    ensures FollowsPath(Apply(w, action))
  {
    hide FollowsPath, PlannedPath, Governed, DecidedByAnother, Proposed;
    var v := Apply(w, action);
    match action
    case Plan(_, _, _, _) => PlanFollowsPath(w, action);
    case Decide(approval, at) => MoveFollowsPath(w, v, StatusOf(approval.verdict), at, Human);
    case LetExpire(at) =>
      assert PathOf(v) == PathOf(w) + [Expired];
      MoveFollowsPath(w, v, Expired, at, System);
    case Begin(_, _, at) =>
      assert PathOf(v) == PathOf(w) + [Executing];
      MoveFollowsPath(w, v, Executing, at, Worker);
    case Complete(_, _) => CompletionFollowsPath(w, action);
  }

  lemma TheSystemPlans()
    ensures forall status :: status in Planning.NODES + [AwaitingApproval] ==> ActorOf(status) == System
  {
  }

  lemma PlannedPathIs()
    ensures PlannedPath() == [Received] + (Planning.NODES + [AwaitingApproval])
  {
  }

  /** The parts of a planned workflow that later steps carry along. */
  lemma PartsCarryOver(w: Workflow, v: Workflow)
    requires v.workflowId == w.workflowId && v.ownerId == w.ownerId && w.transitions <= v.transitions
    requires v.planningResult == w.planningResult && v.actionProposal == w.actionProposal
    requires v.approvalDecision == w.approvalDecision
             || (w.approvalDecision.Some?
                 && exists t :: v.approvalDecision == Some(w.approvalDecision.value.(consumedAt := t)))
    ensures Proposed(w) ==> Proposed(v)
    ensures DecidedByAnother(w, Approve) ==> DecidedByAnother(v, Approve)
    ensures StartedInTime(w) ==> StartedInTime(v)
  {
    assert |w.transitions| > DECIDED_AT ==> v.transitions[DECIDED_AT] == w.transitions[DECIDED_AT];
    assert |w.transitions| > STARTED_AT ==> v.transitions[STARTED_AT] == w.transitions[STARTED_AT];
  }

  lemma DecisionHasParts(w: Workflow, action: Action)
    requires Sound(w) && Enabled(w, action) && action.Decide?
    ensures HasParts(Apply(w, action))
  {
    hide PlannedPath, Governed;
    var v := Apply(w, action);
    assert |w.transitions| == |PathOf(w)| == DECIDED_AT;
    assert v.transitions[DECIDED_AT].at == action.at;
    assert Proposed(v);
    assert DecidedByAnother(v, action.approval.verdict);
  }

  lemma ActionsKeepParts(w: Workflow, action: Action)
    requires Sound(w) && Enabled(w, action)
    ensures HasParts(Apply(w, action))
  {
    hide Sound, Enabled, Apply, HasParts;
    match action
    case Plan(_, _, _, _) => PlanHasParts(w, action);
    case Decide(_, _) => DecisionHasParts(w, action);
    case LetExpire(_) => ExpiryHasParts(w, action);
    case Begin(_, _, _) => BeginningHasParts(w, action);
    case Complete(_, _) => CompletionHasParts(w, action);
  }

  lemma ExpiryHasParts(w: Workflow, action: Action)
    requires Sound(w) && Enabled(w, action) && action.LetExpire?
    ensures HasParts(Apply(w, action))
  {
    hide FollowsPath, Governed, DecidedByAnother, Proposed;
    PartsCarryOver(w, Apply(w, action));
  }

  lemma CompletionHasParts(w: Workflow, action: Action)
    requires Sound(w) && Enabled(w, action) && action.Complete?
    ensures HasParts(Apply(w, action))
  {
    hide FollowsPath, Governed, DecidedByAnother, Proposed;
    var v := Apply(w, action);
    assert v.approvalDecision == Some(w.approvalDecision.value.(consumedAt := Some(action.at)));
    PartsCarryOver(w, v);
  }

  lemma BeginningHasParts(w: Workflow, action: Action)
    requires Sound(w) && Enabled(w, action) && action.Begin?
    ensures HasParts(Apply(w, action))
  {
    hide PlannedPath, Governed, DecidedByAnother, Proposed, AppliedPlan, RecordApproval;
    var v := Apply(w, action);
    assert |w.transitions| == |PathOf(w)| == STARTED_AT;
    assert v.transitions[STARTED_AT].at == action.at;
    PartsCarryOver(w, v);
  }

  lemma PlanHasParts(w: Workflow, action: Action)
    requires Sound(w) && Enabled(w, action) && action.Plan?
    ensures HasParts(Apply(w, action))
  {
    hide FollowsPath, PlannedPath, Governed, Visiting;
  }

  lemma ActionsStayGoverned(w: Workflow, action: Action)
    requires Sound(w) && Enabled(w, action)
    ensures Governed(Apply(w, action))
  {
    hide FollowsPath, HasParts, Visiting;
  }

  /** Every lifecycle action keeps a workflow sound. */
  lemma ActionsKeepSound(w: Workflow, action: Action)
    requires Sound(w) && Enabled(w, action)
    ensures Sound(Apply(w, action))
  {
    hide FollowsPath, HasParts, Governed, Apply, Enabled;
    ActionsFollowPath(w, action);
    ActionsKeepParts(w, action);
    ActionsStayGoverned(w, action);
  }

  // ----- How a workflow may change over time -----

  predicate Terminal(status: Status) {
    status in {Completed, Rejected, Expired, Failed, Cancelled}
  }

  /** Which statuses a stored workflow can have later on. */
  predicate LeadsTo(a: Status, b: Status) {
    || a == b
    || a == Received
    || (a == AwaitingApproval && b != Received)
    || (a == Approved && b in {Executing, Completed, Expired})
    || (a == Executing && b == Completed)
  }

  /** Append-only evolution. It is reflexive and transitive, and the version tells the values apart. */
  ghost predicate Evolves(w: Workflow, v: Workflow) {
    && v.workflowId == w.workflowId && v.ownerId == w.ownerId
    && v.request == w.request && v.requestedLocale == w.requestedLocale && v.createdAt == w.createdAt
    && w.stateVersion <= v.stateVersion
    && (w.stateVersion == v.stateVersion ==> v == w)
    && (Terminal(w.status) ==> v == w)
    && LeadsTo(w.status, v.status)
    && w.transitions <= v.transitions
    && w.governanceDecisions <= v.governanceDecisions
    && (w.planningResult.Some? ==> v.planningResult == w.planningResult)
    && (w.actionProposal.Some? ==> v.actionProposal == w.actionProposal)
    && (w.approvalDecision.Some? ==>
          && v.approvalDecision.Some?
          && v.approvalDecision.value
             == w.approvalDecision.value.(consumedAt := v.approvalDecision.value.consumedAt)
          && (w.approvalDecision.value.consumedAt.Some? ==> v.approvalDecision == w.approvalDecision))
    && (w.executionResult.Some? ==> v.executionResult == w.executionResult)
  }

  lemma EvolutionComposes(u: Workflow, v: Workflow, w: Workflow)
    requires Evolves(u, v) && Evolves(v, w)
    ensures Evolves(u, w)
  {
    PrefixTransitive(u.transitions, v.transitions, w.transitions);
    PrefixTransitive(u.governanceDecisions, v.governanceDecisions, w.governanceDecisions);
  }

  lemma PrefixTransitive<T>(a: seq<T>, b: seq<T>, c: seq<T>)
    requires a <= b && b <= c
    ensures a <= c
  {
    assert a == b[..|a|] == c[..|a|];
  }

  /** Every lifecycle action is an evolution that strictly raises the version. */
  lemma ActionsEvolve(w: Workflow, action: Action)
    requires Sound(w) && Enabled(w, action)
    ensures Evolves(w, Apply(w, action))
    ensures w.stateVersion < Apply(w, action).stateVersion
  {
    hide FollowsPath, Governed, DecidedByAnother, Proposed, StartedInTime, Visiting, CreateToolProposal;
  }

  // ----- The documented state graph -----

  /** The transitions that the state model document allows. */
  predicate DocumentedEdge(previous: Option<Status>, current: Status) {
    match previous
    case None => current == Received
    case Some(Received) => current in {Validated, Failed, Cancelled}
    case Some(Validated) => current == Guarded
    case Some(Guarded) => current == Classified
    case Some(Classified) => current == ContextBuilt
    case Some(ContextBuilt) => current == KnowledgeRetrieved
    case Some(KnowledgeRetrieved) => current == Status.Planned
    case Some(Planned) => current == Evaluated
    case Some(Evaluated) => current == AwaitingApproval
    case Some(AwaitingApproval) => current in {Approved, Rejected, Cancelled, Expired}
    case Some(Approved) => current in {Executing, Expired}
    case Some(Executing) => current in {Evaluating, Failed}
    case Some(Evaluating) => current in {Completed, Failed}
    case Some(_) => false
  }

  function VersionOf(status: Status, wasApproved: bool): nat {
    match status
    case Received => 1
    case AwaitingApproval => 9
    case Approved => 10
    case Rejected => 10
    case Expired => if wasApproved then 11 else 10
    case Executing => 11
    case Completed => 13
    case _ => 0
  }

  lemma PlannedPathIsDocumented(i: nat)
    requires 0 < i < 9
    ensures DocumentedEdge(Some(PlannedPath()[i - 1]), PlannedPath()[i])
  {
  }

  lemma PathIsDocumented(w: Workflow, i: nat)
    requires i < |PathOf(w)|
    ensures DocumentedEdge(if i == 0 then None else Some(PathOf(w)[i - 1]), PathOf(w)[i])
  {
    hide PlannedPath;
    if 0 < i < 9 {
      PlannedPathIsDocumented(i);
      assert PathOf(w)[..9] == PlannedPath();
      assert PathOf(w)[i - 1] == PlannedPath()[i - 1] && PathOf(w)[i] == PlannedPath()[i];
    }
  }

  /** A sound history starts at `received`, is linked, ends at the status, uses documented edges only,
      has one entry a version, and its length is fixed by where the workflow stands. */
  lemma SoundHistoryIsDocumented(w: Workflow)
    requires Sound(w)
    ensures var ts := w.transitions;
            && |ts| == w.stateVersion == VersionOf(w.status, w.approvalDecision.Some?) > 0
            && ts[0].previous == None && ts[0].current == Received
            && ts[|ts| - 1].current == w.status
            && (forall i :: 0 < i < |ts| ==> ts[i].previous == Some(ts[i - 1].current))
            && (forall i :: 0 <= i < |ts| ==> DocumentedEdge(ts[i].previous, ts[i].current))
            && (forall i :: 0 <= i < |ts| ==> ts[i].actor == ActorOf(ts[i].current))
            && ts[0].at == w.createdAt
  {
    hide PlannedPath, DocumentedEdge;
    var ts := w.transitions;
    forall i | 0 <= i < |ts|
      ensures DocumentedEdge(ts[i].previous, ts[i].current)
    {
      PathIsDocumented(w, i);
    }
  }
}
