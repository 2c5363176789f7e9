/** Calls served one after the other deliver a ticket. */
module Delivery {
  import opened Prelude
  import opened Domain
  import opened Adapters
  import opened Protocol
  import opened Invariants
  import opened Runs
  import opened Agreement
  import opened Sequential
  import opened Draining
  import opened Paths
  import Governance
  import Planning
  import Requests

  // ----- Planning and deciding, alone -----

  predicate MayPlan(principal: Principal, w: Workflow) {
    w.ownerId == principal.subject || Administrator in principal.roles
  }

  lemma BaselinePermitsPlanning(env: Services, context: Governance.ProcessingContext)
    requires UsesBaseline(env)
    ensures env.policy(LocalContext(context, Governance.AgentPlanning)).executionAllowed
  {
    var mode :| AppliesBaseline(env, mode);
    Governance.LaterStagesAreNeverDenied(mode, context, Governance.AgentPlanning);
  }

  /** Planning a received workflow alone: the runtime's verdict decides, and its result is stored with a proposal that
      lives for thirty minutes. */
  lemma PlanningAlone(env: Services, w: World, principal: Principal, id: string, input: Input, later: Time)
    requires UsesBaseline(env) && WorldOk(w) && id in w.store.workflows
    requires w.store.workflows[id].status == Received && MayPlan(principal, w.store.workflows[id])
    ensures var current := w.store.workflows[id];
            var (v, outcome) := Serve(env, w, PlanWorkflow(principal, id), input, later);
            match env.plan(InputOf(current))
            case Err(PromptInjectionBlocked) => v == w && outcome == Err(PromptInjectionRejected)
            case Err(EvaluationGateBlocked(_)) => v == w && outcome == Err(EvaluationGateRejected)
            case Ok(result) =>
              && outcome.Ok? && v == w.(store := Replaced(w.store, outcome.value))
              && outcome.value.workflowId == id && outcome.value.ownerId == current.ownerId
              && outcome.value.status == AwaitingApproval
              && outcome.value.planningResult == Some(result)
              && outcome.value.actionProposal == Some(CreateToolProposal(id, result, input.now))
  {
    hide KeysOk, QueueOk, ExecutionsOk, FollowsPath, Evolves;
    var current := w.store.workflows[id];
    assert Sound(current) && HasParts(current);
    BaselinePermitsPlanning(env, current.processingContext);
    var decision := env.policy(LocalContext(current.processingContext, Governance.AgentPlanning));
    if env.plan(InputOf(current)).Ok? {
      var result := env.plan(InputOf(current)).value;
      var proposal := CreateToolProposal(id, result, input.now);
      Unfold(env, w, Proposing(current, result, decision), input, later);
      var applying := Applying(current, result, decision, proposal);
      var planned := AppliedPlan(current, result, decision, proposal, later);
      var storing := Storing(current, Action.Plan(result, decision, proposal, later), planned, None);
      assert RunToEnd(env, w, applying, input, later) == RunToEnd(env, w, storing, input, later);
      Unfold(env, w, storing, input, later);
    }
  }

  predicate MayDecide(principal: Principal, w: Workflow) {
    principal.roles * {Reviewer, Administrator} != {} && principal.subject != w.ownerId
  }

  /** Deciding a pending proposal alone: past its expiry the workflow expires; otherwise the decision is recorded for
      that reviewer, and exactly an approval puts one task at the end of the queue. */
  lemma DecidingAlone(env: Services, w: World, r: Request, input: Input, later: Time)
    requires WorldOk(w) && r.DecideApproval? && r.workflowId in w.store.workflows
    requires w.store.workflows[r.workflowId].status == AwaitingApproval
    requires MayDecide(r.principal, w.store.workflows[r.workflowId])
    ensures var current := w.store.workflows[r.workflowId];
            var (v, outcome) := Serve(env, w, r, input, later);
            && current.actionProposal.Some?
            && r.workflowId in v.store.workflows
            && var next := v.store.workflows[r.workflowId];
               && v.store == Replaced(w.store, next) && v.executions == w.executions
               && next.workflowId == r.workflowId
               && if input.now > current.actionProposal.value.expiresAt
                  then && outcome == Err(ApprovalExpired) && next.status == Expired && next.approvalDecision.None?
                       && v.queue == w.queue
                  else && outcome == Ok(next) && next.status == StatusOf(r.verdict)
                       && next.approvalDecision
                          == Some(CreateApprovalDecision(current.actionProposal.value, r.principal.subject, r.verdict,
                                                         r.reason, r.key, input.now))
                       && v.queue.Waiting()
                          == w.queue.Waiting() + if r.verdict == Approve then [TaskId(r.workflowId)] else []
  {
    hide KeysOk, ExecutionsOk, FollowsPath, Evolves, Pending;
    var current := w.store.workflows[r.workflowId];
    assert Sound(current) && HasParts(current);
    var proposal := current.actionProposal.value;
    var deciding := Deciding(current, proposal, r.principal.subject, r.verdict, r.reason, r.key);
    Unfold(env, w, deciding, input, later);
    var storing := AfterDeciding(deciding, input.now);
    Unfold(env, w, storing, input, later);
    var v := w.(store := Replaced(w.store, storing.next));
    if input.now <= proposal.expiresAt && r.verdict == Approve {
      var task := CreateExecutionTask(r.workflowId, proposal.proposalDigest);
      assert TaskId(r.workflowId) !in w.queue.tasks by {
        UndecidedHasNoTask(w, r.workflowId);
      }
      Unfold(env, v, Enqueueing(task, storing.next), input, later);
      UndecidedIsNotAcknowledged(w, r.workflowId);
      AppendingWaits(w.queue.order, w.queue.completed, TaskId(r.workflowId));
    }
  }

  lemma UndecidedHasNoTask(w: World, id: string)
    requires WorldOk(w) && id in w.store.workflows && w.store.workflows[id].approvalDecision.None?
    ensures TaskId(id) !in w.queue.tasks
  {
    hide Sound, KeysOk, ExecutionsOk;
    assert forall t :: t in w.queue.tasks ==> TaskBound(w.store, w.queue.tasks[t]);
  }

  lemma UndecidedIsNotAcknowledged(w: World, id: string)
    requires WorldOk(w) && id in w.store.workflows && w.store.workflows[id].status == AwaitingApproval
    ensures TaskId(id) !in w.queue.completed
  {
    hide Sound, KeysOk, ExecutionsOk;
  }

  lemma PendingOne(id: TaskId, completed: set<TaskId>)
    requires id !in completed
    ensures Pending([id], completed) == [id]
  {
    assert [id][1..] == [] && Pending([], completed) == [];
  }

  lemma {:induction false} AppendingWaits(order: seq<TaskId>, completed: set<TaskId>, id: TaskId)
    requires id !in completed
    ensures Pending(order + [id], completed) == Pending(order, completed) + [id]
  {
    if order == [] {
      assert [] + [id] == [id];
      PendingOne(id, completed);
    } else {
      AppendingWaits(order[1..], completed, id);
      assert (order + [id])[1..] == order[1..] + [id];
    }
  }

  // ----- From request to ticket -----

  /** When the calls read the clock; `earlier` is for those that process what was waiting before. */
  datatype Schedule = Schedule(
    created: Time, proposed: Time, planned: Time, decided: Time, earlier: seq<Time>, executed: Time)

  /** The calls of one delivery, served one after the other. */
  function Delivered(env: Services, w: World, create: Request, planner: Principal, decide: Request, operator: Principal,
                     id: string, at: Schedule): (World, Outcome)
    requires Bound(w)
  {
    var w1 := Serve(env, w, create, Input(at.created, id), at.created).0;
    var w2 := Serve(env, w1, PlanWorkflow(planner, id), Input(at.proposed, ""), at.planned).0;
    var w3 := Serve(env, w2, decide, Input(at.decided, ""), at.decided).0;
    var w4 := Drain(env, w3, operator, at.earlier).0;
    ProcessOne(env, w4, operator, at.executed)
  }

  function StoredRequest(r: Request, id: string): Planning.PlanningInput
    requires r.CreateWorkflow?
  {
    Planning.PlanningInput(id, r.principal.subject, Requests.Normalize(r.request), Lower(r.requestedLocale))
  }

  /** Every workflow but one is as it was. */
  ghost predicate OthersSame(w: World, v: World, id: string) {
    forall i :: i in w.store.workflows && i != id ==> i in v.store.workflows && v.store.workflows[i] == w.store.workflows[i]
  }

  /** The promise of the whole service: from any well-formed state in which n tasks are waiting, none of them of an
      expired workflow, an accepted request that is planned, approved by someone else before its proposal expires, and
      reached by the (n + 1)-st processing call before the approval does, ends completed, with the one execution
      record made for it, and the queue is empty. */
  lemma RequestsAreDelivered(
    env: Services, w: World, create: Request, planner: Principal, decide: Request, operator: Principal,
    id: string, at: Schedule)
    requires RunsAllNodes(env) && UsesBaseline(env) && WorldOk(w)
    requires NothingExpiredWaits(w) && |at.earlier| == |w.queue.Waiting()|
    requires create.CreateWorkflow? && Accept(env, w, create, at.created).1.Continue?
    requires (create.principal.subject, create.key) !in w.store.idempotency && id !in w.store.workflows
    requires env.plan(StoredRequest(create, id)).Ok?
    requires planner.subject == create.principal.subject || Administrator in planner.roles
    requires decide.DecideApproval? && decide.workflowId == id && decide.verdict == Approve
    requires decide.principal.roles * {Reviewer, Administrator} != {}
    requires decide.principal.subject != create.principal.subject
    requires at.decided <= at.proposed + 30 * 60
    requires MayProcess(operator)
    requires at.executed <= at.decided + 15 * 60 && at.executed <= at.proposed + 30 * 60
    ensures var (v, outcome) := Delivered(env, w, create, planner, decide, operator, id, at);
            && WorldOk(v) && v.queue.Waiting() == []
            && outcome.Ok? && outcome.value.workflowId == id && outcome.value.status == Completed
            && outcome.value.request == Requests.Normalize(create.request)
            && outcome.value.ownerId == create.principal.subject
            && id in v.store.workflows && v.store.workflows[id] == outcome.value
            && outcome.value.planningResult == Some(env.plan(StoredRequest(create, id)).value)
            && HasRecord(v, id)
  {
    hide WorldOk, Sound, Evolves, Accept, Serve, ProcessOne, Drain, UsesBaseline, RunsAllNodes, Pending, ExpiredWaits;
    hide OthersSame, NothingExpiredWaits;
    WorldIsBound(w);
    var w1 := Serve(env, w, create, Input(at.created, id), at.created).0;
    CreationStage(env, w, create, id, at.created);
    var w2 := Serve(env, w1, PlanWorkflow(planner, id), Input(at.proposed, ""), at.planned).0;
    PlanningStage(env, w1, planner, id, at.proposed, at.planned);
    var w3 := Serve(env, w2, decide, Input(at.decided, ""), at.decided).0;
    DecisionStage(env, w2, decide, at.decided, w3);
    var w4 := Drain(env, w3, operator, at.earlier).0;
    OthersStaySame(w, w1, w2, w3, id);
    DrainingStage(env, w, w3, operator, id, at.earlier);
    var (v, outcome) := ProcessOne(env, w4, operator, at.executed);
    assert Delivered(env, w, create, planner, decide, operator, id, at) == (v, outcome);
    ExecutionStage(env, w4, operator, id, at.executed, v, outcome);
  }

  lemma OthersStaySame(w: World, w1: World, w2: World, w3: World, id: string)
    requires OthersSame(w, w1, id) && OthersSame(w1, w2, id) && OthersSame(w2, w3, id)
    ensures OthersSame(w, w3, id)
  {
  }

  lemma CreationStage(env: Services, w: World, create: Request, id: string, now: Time)
    requires RunsAllNodes(env) && WorldOk(w) && create.CreateWorkflow?
    requires Accept(env, w, create, now).1.Continue?
    requires (create.principal.subject, create.key) !in w.store.idempotency && id !in w.store.workflows
    ensures Bound(w)
    ensures var v := Serve(env, w, create, Input(now, id), now).0;
            && WorldOk(v) && v.queue == w.queue && OthersSame(w, v, id) && id in v.store.workflows
            && InputOf(v.store.workflows[id]) == StoredRequest(create, id)
            && v.store.workflows[id].status == Received
  {
    hide WorldOk, Accept, Serve, RunsAllNodes, Rely;
    UnusedKeyCreates(env, w, create, Input(now, id), now);
    ServingIsOk(env, w, create, Input(now, id), now);
  }

  lemma PlanningStage(env: Services, w: World, planner: Principal, id: string, proposed: Time, planned: Time)
    requires RunsAllNodes(env) && UsesBaseline(env) && WorldOk(w) && id in w.store.workflows
    requires w.store.workflows[id].status == Received && MayPlan(planner, w.store.workflows[id])
    requires env.plan(InputOf(w.store.workflows[id])).Ok?
    ensures Bound(w)
    ensures var current := w.store.workflows[id];
            var result := env.plan(InputOf(current)).value;
            var v := Serve(env, w, PlanWorkflow(planner, id), Input(proposed, ""), planned).0;
            && WorldOk(v) && v.queue == w.queue && OthersSame(w, v, id) && id in v.store.workflows
            && var next := v.store.workflows[id];
               && next.status == AwaitingApproval && InputOf(next) == InputOf(current)
               && next.planningResult == Some(result)
               && next.actionProposal == Some(CreateToolProposal(id, result, proposed))
  {
    hide WorldOk, Accept, Serve, RunsAllNodes, UsesBaseline;
    PlanningAlone(env, w, planner, id, Input(proposed, ""), planned);
    ServingIsOk(env, w, PlanWorkflow(planner, id), Input(proposed, ""), planned);
    EvolvesHere(w, Serve(env, w, PlanWorkflow(planner, id), Input(proposed, ""), planned).0, id);
  }

  lemma DecisionStage(env: Services, w: World, r: Request, now: Time, v: World)
    requires RunsAllNodes(env) && WorldOk(w)
    requires r.DecideApproval? && r.verdict == Approve && r.workflowId in w.store.workflows
    requires w.store.workflows[r.workflowId].status == AwaitingApproval
    requires w.store.workflows[r.workflowId].planningResult.Some?
    requires w.store.workflows[r.workflowId].actionProposal.Some?
    requires MayDecide(r.principal, w.store.workflows[r.workflowId])
    requires now <= w.store.workflows[r.workflowId].actionProposal.value.expiresAt
    requires Bound(w) && v == Serve(env, w, r, Input(now, ""), now).0
    ensures WorldOk(v) && v.queue.Waiting() == w.queue.Waiting() + [TaskId(r.workflowId)]
    ensures OthersSame(w, v, r.workflowId) && r.workflowId in v.store.workflows
    ensures v.store.workflows[r.workflowId].status == Approved
    ensures InputOf(v.store.workflows[r.workflowId]) == InputOf(w.store.workflows[r.workflowId])
    ensures v.store.workflows[r.workflowId].planningResult == w.store.workflows[r.workflowId].planningResult
    ensures v.store.workflows[r.workflowId].approvalDecision
            == Some(CreateApprovalDecision(w.store.workflows[r.workflowId].actionProposal.value, r.principal.subject,
                                           Approve, r.reason, r.key, now))
  {
    hide WorldOk, Accept, Serve, RunsAllNodes, Pending, QueueRely, ExecutionsRely;
    DecidingAlone(env, w, r, Input(now, ""), now);
    ServingIsOk(env, w, r, Input(now, ""), now);
    EvolvesHere(w, v, r.workflowId);
  }

  /** Processing what was waiting before leaves the new task alone and at the head. */
  lemma DrainingStage(env: Services, w: World, v: World, operator: Principal, id: string, times: seq<Time>)
    requires UsesBaseline(env) && WorldOk(w) && WorldOk(v) && MayProcess(operator)
    requires NothingExpiredWaits(w) && id !in w.store.workflows && OthersSame(w, v, id) && id in v.store.workflows
    requires v.queue.Waiting() == w.queue.Waiting() + [TaskId(id)] && |times| == |w.queue.Waiting()|
    ensures Bound(v)
    ensures var u := Drain(env, v, operator, times).0;
            && WorldOk(u) && u.queue.Waiting() == [TaskId(id)]
            && id in u.store.workflows && u.store.workflows[id] == v.store.workflows[id]
  {
    hide WorldOk, UsesBaseline, Pending, Drain, Settled, OneMoreDelivery;
    WorldIsBound(v);
    var before, waiting := w.queue.Waiting(), v.queue.Waiting();
    WaitingIsStored(w);
    WaitingIsStored(v);
    WaitingHasNoRepeats(v);
    forall i | 0 <= i < |times| ensures !ExpiredWaits(v, waiting[i]) {
      assert waiting[i] == before[i] && before[i] in before;
    }
    DrainsInOrder(env, v, operator, times);
    assert waiting[|before|] == TaskId(id) && waiting[|before|] in waiting;
    assert waiting[..|times|] == before && TaskId(id) !in before;
  }

  lemma ExecutionStage(env: Services, w: World, operator: Principal, id: string, now: Time, v: World, outcome: Outcome)
    requires RunsAllNodes(env) && UsesBaseline(env) && WorldOk(w) && MayProcess(operator)
    requires w.queue.Waiting() == [TaskId(id)] && id in w.store.workflows
    requires w.store.workflows[id].status == Approved && w.store.workflows[id].planningResult.Some?
    requires w.store.workflows[id].approvalDecision.Some?
    requires now <= w.store.workflows[id].approvalDecision.value.expiresAt
    requires Bound(w) && (v, outcome) == ProcessOne(env, w, operator, now)
    ensures WorldOk(v) && v.queue.Waiting() == [] && id in v.store.workflows
    ensures outcome == Ok(v.store.workflows[id]) && v.store.workflows[id].status == Completed
    ensures v.store.workflows[id].workflowId == id && InputOf(v.store.workflows[id]) == InputOf(w.store.workflows[id])
    ensures v.store.workflows[id].planningResult == w.store.workflows[id].planningResult
    ensures HasRecord(v, id)
  {
    hide WorldOk, Accept, Serve, ProcessOne, RunsAllNodes, UsesBaseline, Pending, OthersUntouched, OneMoreDelivery;
    ProcessingTheHead(env, w, operator, now);
    InTimeMeansCompleted(env, w, operator, id, now);
    ProcessingEvolves(env, w, operator, now, id);
    assert [TaskId(id)][1..] == [];
    StoredIsSound(v, id);
    StoredIsSound(w, id);
    CompletedHasRecord(v, id);
  }

  /** Processing the head in time completes its workflow. */
  lemma InTimeMeansCompleted(env: Services, w: World, principal: Principal, id: string, now: Time)
    requires UsesBaseline(env) && WorldOk(w) && MayProcess(principal)
    requires w.queue.Waiting() != [] && w.queue.Waiting()[0] == TaskId(id) && id in w.store.workflows
    requires var v := w.store.workflows[id];
             v.status == Approved && v.approvalDecision.Some? && now <= v.approvalDecision.value.expiresAt
    ensures Bound(w)
    ensures ProcessOne(env, w, principal, now).1.Ok?
  {
    hide WorldOk, TaskBound, UsesBaseline, Pending;
    WorldIsBound(w);
    ClaimTakesTheHead(w);
    var task := w.queue.Claimed().1.value;
    var w1 := w.(queue := w.queue.Claimed().0);
    WorldIsBound(w1);
    assert ProcessOne(env, w, principal, now) == RunToEnd(env, w1, Claimed(task), Input(now, ""), now);
    WorkerAlone(env, w1, task, Input(now, ""), now);
  }

  lemma ProcessingEvolves(env: Services, w: World, principal: Principal, now: Time, id: string)
    requires RunsAllNodes(env) && WorldOk(w) && id in w.store.workflows
    ensures Bound(w)
    ensures var v := ProcessOne(env, w, principal, now).0;
            id in v.store.workflows && Evolves(w.store.workflows[id], v.store.workflows[id])
  {
    hide WorldOk;
    ServingIsOk(env, w, ProcessNextTask(principal), Input(now, ""), now);
  }
}
