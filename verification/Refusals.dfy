/** For each operation served alone: exactly when it is refused, with which error, and that a refusal changes nothing. */
module Refusals {
  import opened Prelude
  import opened Domain
  import opened Adapters
  import opened Protocol
  import opened Invariants
  import opened Sequential
  import opened Draining
  import opened Delivery
  import opened Guarantees
  import opened Oversight
  import opened Fulfilment
  import Governance
  import Requests

  // ----- Creating -----

  ghost predicate MayCreate(r: Request)
    requires r.CreateWorkflow?
  {
    && (Requester in r.principal.roles || Administrator in r.principal.roles)
    && (forall id :: id in r.overlayIds <==> id == "common-us-baseline")
  }

  /** The key was used before, by the same owner, for another text or locale. */
  predicate KeyConflicts(w: World, r: Request)
    requires r.CreateWorkflow? && w.store.Bound()
  {
    var k := (r.principal.subject, r.key);
    && k in w.store.idempotency
    && var existing := w.store.workflows[w.store.idempotency[k]];
       existing.request != Requests.Normalize(r.request) || existing.requestedLocale != Lower(r.requestedLocale)
  }

  /** Creation, decided in this order: role, overlay, policy, key. */
  lemma CreationIsRefusedExactlyWhen(env: Services, w: World, r: Request, input: Input, later: Time)
    requires WorldOk(w) && r.CreateWorkflow? && input.freshId !in w.store.workflows
    ensures Bound(w)
    ensures var (v, outcome) := Serve(env, w, r, input, later);
            var allowed := env.policy(IntakeContext(env, r)).executionAllowed;
            && (outcome == Err(PermissionDenied)
                <==> Requester !in r.principal.roles && Administrator !in r.principal.roles)
            && (outcome == Err(ComplianceOverlayUnavailable)
                <==> outcome != Err(PermissionDenied) && !MayCreate(r))
            && (outcome == Err(DataProcessingDenied) <==> MayCreate(r) && !allowed)
            && (outcome == Err(IdempotencyConflict) <==> MayCreate(r) && allowed && KeyConflicts(w, r))
            && (outcome.Ok? <==> MayCreate(r) && allowed && !KeyConflicts(w, r))
            && (outcome.Err? ==> v == w)
  {
    hide StoreOk, KeysOk, QueueOk, ExecutionsOk;
    OverlayIsCommon(r.overlayIds);
    RolesMeet(r.principal.roles, Requester, Administrator);
    if Accept(env, w, r, input.now).1.Continue? {
      Unfold(env, w, Accept(env, w, r, input.now).1.call, input, later);
    }
  }

  lemma OverlayIsCommon(overlayIds: seq<string>)
    ensures (set id | id in overlayIds) == {COMMON_OVERLAY}
            <==> forall id :: id in overlayIds <==> id == "common-us-baseline"
  {
    var ids := set id | id in overlayIds;
    assert forall id :: id in ids <==> id in overlayIds;
    if ids == {COMMON_OVERLAY} {
      assert COMMON_OVERLAY in ids;
    }
    if forall id :: id in overlayIds <==> id == "common-us-baseline" {
      assert COMMON_OVERLAY in overlayIds;
      assert ids <= {COMMON_OVERLAY};
    }
  }

  lemma RolesMeet(roles: set<Role>, a: Role, b: Role)
    ensures roles * {a, b} == {} <==> a !in roles && b !in roles
  {
    if a in roles || b in roles {
      assert a in roles * {a, b} || b in roles * {a, b};
    }
  }

  /** Under the enforced baseline an entitled creator is denied exactly when credentials or card data were declared or
      are detected in the normalised text. */
  lemma IntakeIsDeniedExactlyWhen(
    env: Services, matches: Governance.Detector, w: World, r: Request, input: Input, later: Time)
    requires WorldOk(w) && r.CreateWorkflow? && input.freshId !in w.store.workflows
    requires Governs(env, matches) && MayCreate(r)
    ensures Bound(w)
    ensures Serve(env, w, r, input, later) == (w, Err(DataProcessingDenied))
            <==> HoldsCredentials(matches, r) || HoldsCardData(matches, r)
  {
    hide Serve, WorldOk, Governance.Baseline, Governs;
    CreationIsRefusedExactlyWhen(env, w, r, input, later);
    IntakeProfile(env, matches, Requests.Normalize(r.request), r.declared);
    PolicyIsBaseline(env, matches, IntakeContext(env, r));
    Governance.EnforcedIntakeAdmits(IntakeContext(env, r));
  }

  predicate HoldsCredentials(matches: Governance.Detector, r: Request)
    requires r.CreateWorkflow?
  {
    Governance.Credentials in r.declared || matches(Governance.Credentials, Requests.Normalize(r.request))
  }

  predicate HoldsCardData(matches: Governance.Detector, r: Request)
    requires r.CreateWorkflow?
  {
    Governance.PaymentCardData in r.declared || matches(Governance.PaymentCardData, Requests.Normalize(r.request))
  }

  // ----- Planning -----

  /** Only the owner and administrators can tell that a workflow exists; planning is done once. */
  lemma PlanningIsRefusedExactlyWhen(env: Services, w: World, principal: Principal, id: string, input: Input, later: Time)
    requires WorldOk(w)
    ensures Bound(w)
    ensures var (v, outcome) := Serve(env, w, PlanWorkflow(principal, id), input, later);
            var hidden := id !in w.store.workflows
                          || (w.store.workflows[id].ownerId != principal.subject && Administrator !in principal.roles);
            && (outcome == Err(WorkflowNotFound) <==> hidden)
            && (!hidden && w.store.workflows[id].status != Received ==> (v, outcome) == (w, Ok(w.store.workflows[id])))
            && (outcome == Err(DataProcessingDenied) <==>
                  && !hidden && w.store.workflows[id].status == Received
                  && !env.policy(w.store.workflows[id].processingContext.(
                                   operation := Governance.AgentPlanning, provider := "deterministic-local")).executionAllowed)
            && (outcome.Err? ==> v == w)
  {
    hide KeysOk, QueueOk, ExecutionsOk, FollowsPath, Governed, Evolves;
    var r := PlanWorkflow(principal, id);
    if id in w.store.workflows {
      assert Sound(w.store.workflows[id]) && HasParts(w.store.workflows[id]);
    }
    if Accept(env, w, r, input.now).1.Continue? {
      PlanningGoesThrough(env, w, Accept(env, w, r, input.now).1.call, input, later);
    }
  }

  lemma PlanningGoesThrough(env: Services, w: World, call: Call, input: Input, later: Time)
    requires Bound(w) && call.Proposing?
    requires call.snapshot.workflowId in w.store.workflows && w.store.workflows[call.snapshot.workflowId] == call.snapshot
    ensures RunToEnd(env, w, call, input, later).1.Ok?
  {
    Unfold(env, w, call, input, later);
    var proposal := CreateToolProposal(call.snapshot.workflowId, call.result, input.now);
    var applying := Applying(call.snapshot, call.result, call.decision, proposal);
    var planned := AppliedPlan(call.snapshot, call.result, call.decision, proposal, later);
    var storing := Storing(call.snapshot, Action.Plan(call.result, call.decision, proposal, later), planned, None);
    assert RunToEnd(env, w, applying, input, later) == RunToEnd(env, w, storing, input, later);
    Unfold(env, w, storing, input, later);
  }

  // ----- Deciding -----

  /** Decisions need a reviewing role and another owner; a workflow is decided once, and the decision can only be
      repeated: under its key and with its verdict. */
  lemma DecisionIsRefusedExactlyWhen(env: Services, w: World, r: Request, input: Input, later: Time)
    requires WorldOk(w) && r.DecideApproval?
    ensures Bound(w)
    ensures var (v, outcome) := Serve(env, w, r, input, later);
            var reviewing := Reviewer in r.principal.roles || Administrator in r.principal.roles;
            var stored := r.workflowId in w.store.workflows;
            var own := stored && w.store.workflows[r.workflowId].ownerId == r.principal.subject;
            && (outcome == Err(PermissionDenied) <==> !reviewing || own)
            && (outcome == Err(WorkflowNotFound) <==> reviewing && !stored)
            && (reviewing && stored && !own ==>
                  var current := w.store.workflows[r.workflowId];
                  match current.approvalDecision
                  case Some(a) =>
                    && (outcome == Err(InvalidWorkflowState) <==> a.idempotencyKey != r.key)
                    && (outcome == Err(IdempotencyConflict) <==> a.idempotencyKey == r.key && a.verdict != r.verdict)
                    && (outcome.Ok? <==> a.idempotencyKey == r.key && a.verdict == r.verdict)
                    && (outcome.Ok? ==> outcome.value == current) && v.store == w.store
                  case None => outcome == Err(InvalidWorkflowState) <==> current.status != AwaitingApproval)
            && (outcome.Err? && outcome != Err(ApprovalExpired) ==> v == w)
  {
    hide KeysOk, ExecutionsOk, FollowsPath, Governed, Evolves, Pending;
    RolesMeet(r.principal.roles, Reviewer, Administrator);
    if r.workflowId in w.store.workflows {
      assert Sound(w.store.workflows[r.workflowId]) && HasParts(w.store.workflows[r.workflowId]);
    }
    var progress := Accept(env, w, r, input.now).1;
    if progress.Continue? {
      if progress.call.Enqueueing? {
        RepeatedDecisionEnqueues(env, w, progress.call, input, later);
      } else {
        DecidingAlone(env, w, r, input, later);
      }
    }
  }

  lemma RepeatedDecisionEnqueues(env: Services, w: World, call: Call, input: Input, later: Time)
    requires WorldOk(w) && call.Enqueueing? && TaskBound(w.store, call.task)
    ensures Bound(w)
    ensures var (v, outcome) := RunToEnd(env, w, call, input, later);
            outcome == Ok(call.stored) && v.store == w.store
  {
    hide WorldOk, TaskBound;
    WorldIsBound(w);
    EnqueueGuarantees(w, call.task);
    Unfold(env, w, call, input, later);
  }

  // ----- Processing -----

  /** Processing needs an operator or administrator and a waiting task. */
  lemma ProcessingIsRefusedExactlyWhen(env: Services, w: World, principal: Principal, input: Input, later: Time)
    requires WorldOk(w)
    ensures Bound(w)
    ensures var (v, outcome) := Serve(env, w, ProcessNextTask(principal), input, later);
            && (Operator !in principal.roles && Administrator !in principal.roles
                ==> (v, outcome) == (w, Err(PermissionDenied)))
            && ((Operator in principal.roles || Administrator in principal.roles) && w.queue.Waiting() == []
                ==> (v, outcome) == (w, Err(NoPendingTask)))
            && (outcome == Err(PermissionDenied) <==> Operator !in principal.roles && Administrator !in principal.roles)
            && (outcome == Err(NoPendingTask) <==> outcome != Err(PermissionDenied) && w.queue.Waiting() == [])
  {
    hide WorldOk, Pending, TaskBound, RunToEnd;
    WorldIsBound(w);
    RolesMeet(principal.roles, Operator, Administrator);
    if principal.roles * {Operator, Administrator} != {} && w.queue.Waiting() != [] {
      ClaimTakesTheHead(w);
      var w1 := w.(queue := w.queue.Claimed().0);
      WorldIsBound(w1);
      WorkersReportWork(env, w1, Claimed(w.queue.Claimed().1.value), input, later);
    }
  }

  /** A worker's call never ends for want of a role or of work. */
  lemma {:induction false} WorkersReportWork(env: Services, w: World, call: Call, input: Input, later: Time)
    requires Bound(w) && TaskOf(call).Some?
    requires call.Acknowledging? ==> call.outcome !in {Err(PermissionDenied), Err(NoPendingTask)}
    ensures RunToEnd(env, w, call, input, later).1 !in {Err(PermissionDenied), Err(NoPendingTask)}
    decreases Rank(call)
  {
    Unfold(env, w, call, input, later);
    ResumeAdvances(env, w, call, input);
    var (v, progress) := Resume(env, w, call, input);
    if progress.Continue? {
      WorkersReportWork(env, v, progress.call, input, later);
    }
  }

  // ----- Executing -----

  /** A task is carried out only for a stored workflow that was approved and not rejected or expired, and only for the
      very proposal that was approved. */
  lemma TaskIsRefusedExactlyWhen(env: Services, w: World, task: ExecutionTask, input: Input, later: Time)
    requires UsesBaseline(env) && WorldOk(w) && WellFormedTask(task)
    ensures Bound(w)
    ensures var (v, outcome) := Serve(env, w, ExecuteTask(task), input, later);
            var id := task.workflowId;
            && (id !in w.store.workflows ==> (v, outcome) == (w, Err(WorkflowNotFound)))
            && (id in w.store.workflows ==>
                  var current := w.store.workflows[id];
                  var bound := current.actionProposal.Some?
                               && current.actionProposal.value.proposalDigest == task.proposalDigest;
                  && (current.status in {Received, AwaitingApproval, Rejected, Expired}
                      ==> (v, outcome) == (w, Err(InvalidWorkflowState)))
                  && (current.status in {Approved, Executing} && !bound ==> (v, outcome) == (w, Err(InvalidWorkflowState)))
                  && (current.status == Completed && !bound ==> (v, outcome) == (w, Err(IdempotencyConflict)))
                  && (current.status in {Executing, Completed} && bound ==> outcome.Ok?)
                  && (current.status == Approved && bound ==> outcome.Ok? || outcome == Err(ApprovalExpired)))
  {
    hide KeysOk, QueueOk, ExecutionsOk, Sound, Evolves, UsesBaseline, RunToEnd;
    WorldIsBound(w);
    assert Serve(env, w, ExecuteTask(task), input, later) == RunToEnd(env, w, Claimed(task), input, later);
    if task.workflowId !in w.store.workflows {
      Unfold(env, w, Claimed(task), input, later);
    } else {
      BoundOrNot(w, task);
      if TaskBound(w.store, task) {
        WorkerAlone(env, w, task, input, later);
      } else {
        UnboundTaskIsRefused(env, w, task, input, later);
      }
    }
  }

  /** Within the statuses of approved work, being bound is being for the approved proposal. */
  lemma BoundOrNot(w: World, task: ExecutionTask)
    requires WorldOk(w) && WellFormedTask(task) && task.workflowId in w.store.workflows
    ensures var current := w.store.workflows[task.workflowId];
            var bound := current.actionProposal.Some?
                         && current.actionProposal.value.proposalDigest == task.proposalDigest;
            && (current.status in {Approved, Executing, Completed} ==> (bound <==> TaskBound(w.store, task)))
            && (current.status in {Received, AwaitingApproval, Rejected} ==> !TaskBound(w.store, task))
            && current.status in {Received, AwaitingApproval, Approved, Rejected, Expired, Executing, Completed}
  {
    hide KeysOk, QueueOk, ExecutionsOk, FollowsPath, Governed, Evolves;
    assert Sound(w.store.workflows[task.workflowId]) && HasParts(w.store.workflows[task.workflowId]);
  }

  lemma UnboundTaskIsRefused(env: Services, w: World, task: ExecutionTask, input: Input, later: Time)
    requires WorldOk(w) && WellFormedTask(task) && task.workflowId in w.store.workflows && !TaskBound(w.store, task)
    ensures Bound(w)
    ensures RunToEnd(env, w, Claimed(task), input, later)
            == (w, Err(if w.store.workflows[task.workflowId].status == Completed then IdempotencyConflict
                       else InvalidWorkflowState))
  {
    hide KeysOk, QueueOk, ExecutionsOk, FollowsPath, Governed, Evolves, RunToEnd;
    var current := w.store.workflows[task.workflowId];
    assert Sound(current) && HasParts(current);
    Unfold(env, w, Claimed(task), input, later);
    var progress := AfterClaim(w.store, task);
    if progress.Continue? {
      Unfold(env, w, progress.call, input, later);
    }
  }
}
