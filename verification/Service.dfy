/** The service itself, statement by statement. Each method is proved to do, when it runs alone, exactly what the
    interleaving model does for the same request; the theorems about that model then speak about these bodies. */
module Service {
  import opened Prelude
  import opened Domain
  import opened Adapters
  import opened Protocol
  import opened Sequential
  import Governance
  import Planning
  import Requests

  class WorkflowService {
    const env: Services
    const repository: InMemoryWorkflowRepository
    const taskQueue: InMemoryTaskQueue
    const toolExecutor: SimulatedTicketExecutor

    ghost function Shared(): World
      reads repository, taskQueue, toolExecutor
    {
      World(repository.Contents(), taskQueue.Contents(), toolExecutor.executions)
    }

    ghost predicate Valid()
      reads repository, taskQueue
    {
      repository.Valid() && taskQueue.Valid()
    }

    constructor (env: Services, repository: InMemoryWorkflowRepository, taskQueue: InMemoryTaskQueue,
                 toolExecutor: SimulatedTicketExecutor)
      ensures this.env == env && this.repository == repository
      ensures this.taskQueue == taskQueue && this.toolExecutor == toolExecutor
    {
      this.env, this.repository, this.taskQueue, this.toolExecutor := env, repository, taskQueue, toolExecutor;
    }

    /** `input` is what the clock and the id factory return during the call. */
    method Create(principal: Principal, request: string, requestedLocale: string, key: string,
                  declared: set<Governance.DataCategory>, jurisdiction: string, overlayIds: seq<string>, input: Input)
      returns (r: Outcome)
      requires Valid()
      modifies repository
      ensures Valid()
      ensures (Shared(), r)
              == Serve(env, old(Shared()),
                       CreateWorkflow(principal, request, requestedLocale, key, declared, jurisdiction, overlayIds),
                       input, input.now)
    {
      if principal.roles * {Requester, Administrator} == {} {
        return Err(PermissionDenied);
      }
      var normalized := Requests.Normalize(request);
      if (set id | id in overlayIds) != {COMMON_OVERLAY} {
        return Err(ComplianceOverlayUnavailable);
      }
      var profile := env.classify(normalized, declared);
      var context := Governance.ProcessingContext(
        principal.subject, Governance.WorkflowIntake, Governance.LOCAL_API, jurisdiction, profile, overlayIds);
      var decision := env.policy(context);
      if !decision.executionAllowed {
        return Err(DataProcessingDenied);
      }
      var locale := Lower(requestedLocale);
      ghost var draft := Draft(principal.subject, normalized, locale, context, decision, input.now);
      Unfold(env, Shared(), Creating(draft, key), input, input.now);
      var w := Receive(input.freshId, principal.subject, normalized, locale, context, decision, input.now);
      r := repository.Create(w, key);
    }

    /** The proposal is stamped with one clock reading, the planned history with a later one. */
    method Plan(principal: Principal, workflowId: string, input: Input, later: Time) returns (r: Outcome)
      requires Valid()
      modifies repository
      ensures Valid()
      ensures (Shared(), r) == Serve(env, old(Shared()), PlanWorkflow(principal, workflowId), input, later)
    {
      ghost var w0 := Shared();
      var found := repository.Get(workflowId);
      if found.None? || (found.value.ownerId != principal.subject && Administrator !in principal.roles) {
        return Err(WorkflowNotFound);
      }
      var w := found.value;
      if w.planningResult.Some? {
        return Ok(w);
      }
      if w.status != Received {
        return Err(InvalidWorkflowState);
      }
      var decision := env.policy(LocalContext(w.processingContext, Governance.AgentPlanning));
      if !decision.executionAllowed {
        return Err(DataProcessingDenied);
      }
      var result;
      match env.plan(Planning.PlanningInput(w.workflowId, w.ownerId, w.request, w.requestedLocale)) {
        case Err(PromptInjectionBlocked) => return Err(PromptInjectionRejected);
        case Err(EvaluationGateBlocked(_)) => return Err(EvaluationGateRejected);
        case Ok(planned) => result := planned;
      }
      var proposal := CreateToolProposal(w.workflowId, result, input.now);
      var planned := ApplyPlanningResult(w, result, decision, proposal, later);
      ghost var applying := Applying(w, result, decision, proposal);
      ghost var storing := Storing(w, Action.Plan(result, decision, proposal, later), planned, None);
      Unfold(env, w0, Proposing(w, result, decision), input, later);
      assert RunToEnd(env, w0, applying, input, later) == RunToEnd(env, w0, storing, input, later);
      Unfold(env, w0, storing, input, later);
      r := repository.Update(planned, w.stateVersion);
    }

    method DecideApproval(principal: Principal, workflowId: string, verdict: Verdict, reason: string, key: string,
                          input: Input)
      returns (r: Outcome)
      requires Valid()
      modifies repository, taskQueue
      ensures Valid()
      ensures (Shared(), r)
              == Serve(env, old(Shared()), Request.DecideApproval(principal, workflowId, verdict, reason, key),
                       input, input.now)
    {
      hide Expire, RecordApproval, CreateApprovalDecision, Pending;
      if principal.roles * {Reviewer, Administrator} == {} {
        return Err(PermissionDenied);
      }
      ghost var w0 := Shared();
      var found := repository.Get(workflowId);
      if found.None? {
        return Err(WorkflowNotFound);
      }
      var w := found.value;
      if w.ownerId == principal.subject {
        return Err(PermissionDenied);
      }
      if w.approvalDecision.Some? {
        var existing := w.approvalDecision.value;
        if existing.idempotencyKey != key {
          return Err(InvalidWorkflowState);
        }
        if existing.verdict != verdict {
          return Err(IdempotencyConflict);
        }
        if verdict == Approve && w.actionProposal.Some? {
          var task := CreateExecutionTask(w.workflowId, w.actionProposal.value.proposalDigest);
          Unfold(env, w0, Enqueueing(task, w), input, input.now);
          var queued := taskQueue.Enqueue(task);
          if queued.Err? {
            return Err(queued.error);
          }
        }
        return Ok(w);
      }
      if w.status != AwaitingApproval || w.actionProposal.None? {
        return Err(InvalidWorkflowState);
      }
      var proposal := w.actionProposal.value;
      ghost var deciding := Deciding(w, proposal, principal.subject, verdict, reason, key);
      Unfold(env, w0, deciding, input, input.now);
      Unfold(env, w0, AfterDeciding(deciding, input.now), input, input.now);
      if input.now > proposal.expiresAt {
        var expired := Expire(w, input.now);
        r := repository.Update(expired, w.stateVersion);
        if r.Ok? {
          r := Err(ApprovalExpired);
        }
        return;
      }
      var approval := CreateApprovalDecision(proposal, principal.subject, verdict, reason, key, input.now);
      var decided := RecordApproval(w, approval, input.now);
      r := repository.Update(decided, w.stateVersion);
      if r.Ok? && verdict == Approve {
        var task := CreateExecutionTask(w.workflowId, proposal.proposalDigest);
        Unfold(env, Shared(), Enqueueing(task, decided), input, input.now);
        var queued := taskQueue.Enqueue(task);
        if queued.Err? {
          r := Err(queued.error);
        }
      }
    }

    method ProcessNextTask(principal: Principal, input: Input) returns (r: Outcome)
      requires Valid()
      modifies repository, taskQueue, toolExecutor
      ensures Valid()
      ensures (Shared(), r)
              == Serve(env, old(Shared()), Request.ProcessNextTask(principal), input, input.now)
    {
      if principal.roles * {Operator, Administrator} == {} {
        return Err(PermissionDenied);
      }
      var task := taskQueue.ClaimNext();
      if task.None? {
        return Err(NoPendingTask);
      }
      r := ExecuteTask(task.value, input);
    }

    method ExecuteTask(task: ExecutionTask, input: Input) returns (r: Outcome)
      requires Valid()
      modifies repository, taskQueue, toolExecutor
      ensures Valid()
      ensures (Shared(), r) == RunToEnd(env, old(Shared()), Claimed(task), input, input.now)
    {
      hide RunToEnd;
      ghost var w0 := Shared();
      Unfold(env, w0, Claimed(task), input, input.now);
      var found := repository.Get(task.workflowId);
      if found.None? {
        return Err(WorkflowNotFound);
      }
      var w := found.value;
      if w.status == Completed && w.executionResult.Some? {
        if w.executionResult.value.proposalDigest != task.proposalDigest {
          return Err(IdempotencyConflict);
        }
        Unfold(env, w0, Acknowledging(task, Ok(w)), input, input.now);
        taskQueue.Complete(task.taskId);
        return Ok(w);
      }
      if w.actionProposal.None? || w.approvalDecision.None? {
        return Err(InvalidWorkflowState);
      }
      var proposal, approval := w.actionProposal.value, w.approvalDecision.value;
      if proposal.proposalDigest != task.proposalDigest || approval.proposalDigest != task.proposalDigest {
        return Err(InvalidWorkflowState);
      }
      ghost var work := Work(task, proposal);
      ghost var judging := Judging(work, w, approval);
      Unfold(env, w0, judging, input, input.now);
      if w.status == Approved {
        if input.now > approval.expiresAt {
          var expired := Expire(w, input.now);
          Unfold(env, w0, Storing(w, LetExpire(input.now), expired, Some(work)), input, input.now);
          r := repository.Update(expired, w.stateVersion);
          if r.Err? {
            return;
          }
          Unfold(env, Shared(), Acknowledging(task, Err(ApprovalExpired)), input, input.now);
          taskQueue.Complete(task.taskId);
          return Err(ApprovalExpired);
        }
        var context := LocalContext(w.processingContext, Governance.ToolExecution);
        var decision := env.policy(context);
        if !decision.executionAllowed {
          return Err(DataProcessingDenied);
        }
        var begun := BeginExecution(w, decision, context, input.now);
        Unfold(env, w0, Storing(w, Action.Begin(decision, context, input.now), begun, Some(work)), input, input.now);
        r := repository.Update(begun, w.stateVersion);
        if r.Err? {
          return;
        }
        w := begun;
      } else if w.status != Executing {
        return Err(InvalidWorkflowState);
      }
      r := Finish(task, proposal, w, input);
    }

    /** The last part of a task: the effect, the completed workflow, the acknowledgement. */
    method Finish(task: ExecutionTask, proposal: ToolActionProposal, w: Workflow, input: Input) returns (r: Outcome)
      requires Valid()
      modifies repository, taskQueue, toolExecutor
      ensures Valid()
      ensures (Shared(), r)
              == RunToEnd(env, old(Shared()), Running(Work(task, proposal), w, input.now), input, input.now)
    {
      hide RunToEnd;
      ghost var work := Work(task, proposal);
      Unfold(env, Shared(), Running(work, w, input.now), input, input.now);
      var record := toolExecutor.Execute(task, proposal, input.now);
      if record.Err? {
        return Err(record.error);
      }
      var completed := CompleteExecution(w, record.value, input.now);
      if completed.Err? {
        return Err(completed.error);
      }
      Unfold(env, Shared(), Storing(w, Complete(record.value, input.now), completed.value, Some(work)), input, input.now);
      r := repository.Update(completed.value, w.stateVersion);
      if r.Err? {
        return;
      }
      Unfold(env, Shared(), Acknowledging(task, Ok(completed.value)), input, input.now);
      taskQueue.Complete(task.taskId);
    }
  }
}
