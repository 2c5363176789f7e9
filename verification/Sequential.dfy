/** Calls that run alone, and recovery from crashes. */
module Sequential {
  import opened Prelude
  import opened Domain
  import opened Adapters
  import opened Protocol
  import opened Invariants
  import opened Guarantees
  import opened Runs
  import Governance

  ghost predicate AppliesBaseline(env: Services, mode: Governance.EnforcementMode) {
    forall context :: env.policy(context) == Governance.Baseline(mode, context)
  }

  ghost predicate UsesBaseline(env: Services) {
    exists mode :: AppliesBaseline(env, mode)
  }

  lemma BaselinePermitsExecution(env: Services, context: Governance.ProcessingContext)
    requires UsesBaseline(env)
    ensures env.policy(LocalContext(context, Governance.ToolExecution)).executionAllowed
  {
    var mode :| AppliesBaseline(env, mode);
    Governance.LaterStagesAreNeverDenied(mode, context, Governance.ToolExecution);
  }

  /** Running alone is taking the next step and running alone from there. */
  lemma Unfold(env: Services, w: World, call: Call, input: Input, later: Time)
    requires Bound(w) && !call.Applying?
    ensures Bound(Resume(env, w, call, input).0)
    ensures var (v, progress) := Resume(env, w, call, input);
            RunToEnd(env, w, call, input, later)
            == match progress
               case Continue(next) => RunToEnd(env, v, next, input, later)
               case Return(outcome) => (v, outcome)
  {
  }

  lemma {:induction false} RunToEndIsOk(env: Services, w: World, call: Call, input: Input, later: Time)
    requires WorldOk(w) && CallOk(w, call) && (call.Creating? ==> input.freshId !in w.store.workflows)
    ensures WorldOk(RunToEnd(env, w, call, input, later).0)
    ensures Rely(w, RunToEnd(env, w, call, input, later).0)
    decreases Rank(call)
  {
    hide CallOk, Rely;
    var step := if call.Applying? then input.(now := later) else input;
    ResumeGuarantees(env, w, call, step);
    ResumeAdvances(env, w, call, step);
    var (v, progress) := Resume(env, w, call, step);
    if progress.Continue? {
      CreatingComesFirst(env, w, call, step);
      RunToEndIsOk(env, v, progress.call, input, later);
      RelyComposes(w, v, RunToEnd(env, v, progress.call, input, later).0);
    }
  }

  lemma CreatingComesFirst(env: Services, w: World, call: Call, input: Input)
    requires Bound(w)
    ensures Resume(env, w, call, input).1.Continue? ==> !Resume(env, w, call, input).1.call.Creating?
  {
  }

  // ----- One worker, undisturbed -----

  /** The workflow is completed with the record under its key, the task acknowledged, nothing else touched;
      a record made earlier is reused, otherwise one is made now. */
  ghost predicate CompletedAlone(w: World, v: World, task: ExecutionTask, outcome: Outcome, now: Time) {
    && outcome.Ok?
    && outcome.value.workflowId == task.workflowId && outcome.value.status == Completed
    && v.store == w.store.(workflows := w.store.workflows[task.workflowId := outcome.value])
    && v.queue == w.queue.Acknowledged(task.taskId)
    && task.idempotencyKey in v.executions
    && outcome.value.executionResult == Some(v.executions[task.idempotencyKey])
    && (task.idempotencyKey !in w.executions ==> v.executions[task.idempotencyKey].executedAt == now)
    && v.executions == if task.idempotencyKey in w.executions then w.executions
                       else w.executions[task.idempotencyKey := v.executions[task.idempotencyKey]]
  }

  ghost predicate ExpiredAlone(w: World, v: World, task: ExecutionTask, outcome: Outcome) {
    && outcome == Err(ApprovalExpired)
    && task.workflowId in v.store.workflows && v.store.workflows[task.workflowId].status == Expired
    && v.store == w.store.(workflows := w.store.workflows[task.workflowId := v.store.workflows[task.workflowId]])
    && v.queue == w.queue.Acknowledged(task.taskId)
    && v.executions == w.executions
  }

  lemma StoredIsSound(w: World, id: string)
    requires WorldOk(w) && id in w.store.workflows
    ensures Sound(w.store.workflows[id]) && w.store.workflows[id].workflowId == id
  {
  }

  lemma RunningAloneCompletes(env: Services, w: World, work: Work, now: Time, input: Input, later: Time)
    requires WorldOk(w) && work.task.workflowId in w.store.workflows
    requires var current := w.store.workflows[work.task.workflowId];
             WorkFits(work, current) && current.status == Executing
    ensures var current := w.store.workflows[work.task.workflowId];
            var (v, outcome) := RunToEnd(env, w, Running(work, current, now), input, later);
            CompletedAlone(w, v, work.task, outcome, now)
  {
    hide Sound, Evolves, WorldOk, Rely, Pending;
    WorldIsBound(w);
    StoredIsSound(w, work.task.workflowId);
    var current := w.store.workflows[work.task.workflowId];
    var running := Running(work, current, now);
    ExecuteGuarantees(w, work, now);
    SoundProposalApproval(current);
    Unfold(env, w, running, input, later);
    var (w1, p1) := Resume(env, w, running, input);
    Unfold(env, w1, p1.call, input, later);
    var (w2, p2) := Resume(env, w1, p1.call, input);
    Unfold(env, w2, p2.call, input, later);
    assert w2.store == w.store.(workflows := w.store.workflows[work.task.workflowId := p1.call.next]);
  }

  /** What an undisturbed worker makes of its task depends only on the workflow's status and the clock. */
  lemma WorkerAlone(env: Services, w: World, task: ExecutionTask, input: Input, later: Time)
    requires UsesBaseline(env) && WorldOk(w) && TaskBound(w.store, task)
    ensures var (v, outcome) := RunToEnd(env, w, Claimed(task), input, later);
            var current := w.store.workflows[task.workflowId];
            && current.status in {Approved, Executing, Completed, Expired}
            && (current.status == Executing ==> CompletedAlone(w, v, task, outcome, input.now))
            && (current.status == Approved && input.now <= current.approvalDecision.value.expiresAt ==>
                  CompletedAlone(w, v, task, outcome, input.now))
            && (current.status == Approved && input.now > current.approvalDecision.value.expiresAt ==>
                  ExpiredAlone(w, v, task, outcome))
            && (current.status == Completed ==> CompletedAlone(w, v, task, outcome, input.now) && v.store == w.store)
            && (current.status == Expired ==> v == w && outcome == Err(InvalidWorkflowState))
  {
    hide KeysOk, QueueOk, FollowsPath, Evolves, CompletedAlone, ExpiredAlone, RunToEnd;
    var current := w.store.workflows[task.workflowId];
    assert Sound(current) && HasParts(current);
    Unfold(env, w, Claimed(task), input, later);
    if current.status == Completed {
      CompletedTaskIsAcknowledged(env, w, task, input, later);
    } else {
      ClaimedStep(env, w, Claimed(task), input);
      var judging := AfterClaim(w.store, task).call;
      Unfold(env, w, judging, input, later);
      if current.status == Executing {
        RunningAloneCompletes(env, w, judging.work, input.now, input, later);
      } else if current.status == Approved {
        BaselinePermitsExecution(env, current.processingContext);
        ApprovedAlone(env, w, judging, input, later);
      }
    }
  }

  lemma RecordMatchesProposal(w: World, id: string)
    requires WorldOk(w) && id in w.store.workflows && w.store.workflows[id].status == Completed
    ensures var v := w.store.workflows[id];
            && v.executionResult.Some? && v.actionProposal.Some?
            && v.executionResult.value.proposalDigest == v.actionProposal.value.proposalDigest
  {
    hide KeysOk, QueueOk, FollowsPath, Governed;
    assert Sound(w.store.workflows[id]);
  }

  lemma CompletedTaskIsAcknowledged(env: Services, w: World, task: ExecutionTask, input: Input, later: Time)
    requires WorldOk(w) && TaskBound(w.store, task) && w.store.workflows[task.workflowId].status == Completed
    ensures var (v, outcome) := RunToEnd(env, w, Claimed(task), input, later);
            CompletedAlone(w, v, task, outcome, input.now) && v.store == w.store
  {
    hide StoreOk, KeysOk, QueueOk, Sound, Evolves, Recorded, Rely;
    StoredIsSound(w, task.workflowId);
    var current := w.store.workflows[task.workflowId];
    SoundProposalApproval(current);
    assert ResultIsRecord(current, w.executions);
    RecordMatchesProposal(w, task.workflowId);
    Unfold(env, w, Claimed(task), input, later);
    Unfold(env, w, Acknowledging(task, Ok(current)), input, later);
    assert w.store.workflows[task.workflowId := current] == w.store.workflows;
  }

  /** The worker's update of an approved workflow is accepted when nothing intervenes. */
  lemma ApprovedIsStored(env: Services, w: World, judging: Call, input: Input, later: Time)
    requires WorldOk(w) && CallOk(w, judging) && judging.Judging? && judging.snapshot.status == Approved
    requires w.store.workflows[judging.snapshot.workflowId] == judging.snapshot
    requires env.policy(LocalContext(judging.snapshot.processingContext, Governance.ToolExecution)).executionAllowed
    ensures AfterJudging(env, judging, input.now).Continue?
    ensures var storing := AfterJudging(env, judging, input.now).call;
            && storing.Storing? && storing.next.workflowId == judging.snapshot.workflowId
            && storing.next.actionProposal == judging.snapshot.actionProposal
            && storing.next.status == (if input.now <= judging.approval.expiresAt then Executing else Expired)
            && var v := w.(store := Replaced(w.store, storing.next));
               && WorldOk(v)
               && RunToEnd(env, w, judging, input, later)
                  == RunToEnd(env, v, if input.now <= judging.approval.expiresAt
                                      then Running(judging.work, storing.next, input.now)
                                      else Acknowledging(judging.work.task, Err(ApprovalExpired)), input, later)
  {
    hide KeysOk, QueueOk, ExecutionsOk, Sound, Evolves, WorldOk, Rely;
    WorldIsBound(w);
    JudgingStep(env, w, judging, input);
    Unfold(env, w, judging, input, later);
    var storing := AfterJudging(env, judging, input.now).call;
    StoringGuarantees(w, storing);
    UpdateHitsSnapshot(w, storing.snapshot, storing.next);
    Unfold(env, w, storing, input, later);
  }

  lemma ApprovedAlone(env: Services, w: World, judging: Call, input: Input, later: Time)
    requires WorldOk(w) && CallOk(w, judging) && judging.Judging? && judging.snapshot.status == Approved
    requires w.store.workflows[judging.snapshot.workflowId] == judging.snapshot
    requires env.policy(LocalContext(judging.snapshot.processingContext, Governance.ToolExecution)).executionAllowed
    ensures var (v, outcome) := RunToEnd(env, w, judging, input, later);
            if input.now <= judging.approval.expiresAt then CompletedAlone(w, v, judging.work.task, outcome, input.now)
            else ExpiredAlone(w, v, judging.work.task, outcome)
  {
    hide Sound, Evolves, WorldOk, Rely, AfterJudging;
    var id := judging.snapshot.workflowId;
    ApprovedIsStored(env, w, judging, input, later);
    var next := AfterJudging(env, judging, input.now).call.next;
    var w1 := w.(store := Replaced(w.store, next));
    if input.now <= judging.approval.expiresAt {
      RunningAloneCompletes(env, w1, judging.work, input.now, input, later);
      var (v, outcome) := RunToEnd(env, w1, Running(judging.work, next, input.now), input, later);
      assert v.store.workflows == w.store.workflows[id := outcome.value];
    } else {
      WorldIsBound(w1);
      Unfold(env, w1, Acknowledging(judging.work.task, Err(ApprovalExpired)), input, later);
    }
  }

  /** Crash recovery: from every reachable state, a waiting task on an approved or executing workflow is brought to
      its end by one undisturbed worker, and an effect made before the crash is not made again. */
  lemma OneRunRecovers(
    env: Services, states: seq<State>, events: seq<Event>, i: nat, id: string, input: Input, later: Time)
    requires RunsAllNodes(env) && UsesBaseline(env) && IsRun(env, states, events) && i < |states|
    requires Claimable(states[i].world.queue, id) && id in states[i].world.store.workflows
    requires states[i].world.store.workflows[id].status in {Approved, Executing}
    requires Bound(states[i].world)
    ensures TaskId(id) in states[i].world.queue.tasks
    ensures var w := states[i].world;
            var (v, outcome) := RunToEnd(env, w, Claimed(w.queue.tasks[TaskId(id)]), input, later);
            && id in v.store.workflows && v.store.workflows[id].status in {Completed, Expired}
            && !Claimable(v.queue, id)
            && (v.store.workflows[id].status == Expired ==>
                  && w.store.workflows[id].approvalDecision.Some?
                  && input.now > w.store.workflows[id].approvalDecision.value.expiresAt)
            && (forall k :: k in w.executions ==> k in v.executions && v.executions[k] == w.executions[k])
            && (forall k :: k in v.executions && k !in w.executions ==> k.workflowId == id)
            && OneRecordPerWorkflow(v.executions)
  {
    hide WorldOk, RunToEnd, UsesBaseline, Pending, Claimable, OneRecordPerWorkflow, Rely, CallOk;
    EveryRunIsOk(env, states, events, i);
    WorkerRecovers(env, states[i].world, id, input, later);
  }

  lemma WorkerRecovers(env: Services, w: World, id: string, input: Input, later: Time)
    requires RunsAllNodes(env) && UsesBaseline(env) && WorldOk(w)
    requires Claimable(w.queue, id) && id in w.store.workflows && w.store.workflows[id].status in {Approved, Executing}
    ensures Bound(w) && TaskId(id) in w.queue.tasks
    ensures var (v, outcome) := RunToEnd(env, w, Claimed(w.queue.tasks[TaskId(id)]), input, later);
            && id in v.store.workflows && v.store.workflows[id].status in {Completed, Expired}
            && !Claimable(v.queue, id)
            && (v.store.workflows[id].status == Expired ==>
                  && w.store.workflows[id].approvalDecision.Some?
                  && input.now > w.store.workflows[id].approvalDecision.value.expiresAt)
            && (forall k :: k in w.executions ==> k in v.executions && v.executions[k] == w.executions[k])
            && (forall k :: k in v.executions && k !in w.executions ==> k.workflowId == id)
            && OneRecordPerWorkflow(v.executions)
  {
    hide WorldOk, RunToEnd, UsesBaseline, Pending, Claimable, OneRecordPerWorkflow, Rely, CallOk;
    ClaimableIsBound(w, id);
    var task := w.queue.tasks[TaskId(id)];
    WorkerAlone(env, w, task, input, later);
    RunToEndIsOk(env, w, Claimed(task), input, later);
    var v := RunToEnd(env, w, Claimed(task), input, later).0;
    AcknowledgedIsNotClaimable(v.queue, id);
    RecordsAreUnique(v);
  }

  lemma ClaimableIsBound(w: World, id: string)
    requires WorldOk(w) && Claimable(w.queue, id)
    ensures TaskId(id) in w.queue.tasks && TaskBound(w.store, w.queue.tasks[TaskId(id)])
    ensures w.queue.tasks[TaskId(id)].workflowId == id && w.queue.tasks[TaskId(id)].taskId == TaskId(id)
    ensures CallOk(w, Claimed(w.queue.tasks[TaskId(id)]))
  {
    hide Sound, KeysOk, ExecutionsOk;
    PendingAreOrdered(w.queue.order, w.queue.completed);
  }

  lemma AcknowledgedIsNotClaimable(q: Queue, id: string)
    requires TaskId(id) in q.completed
    ensures !Claimable(q, id)
  {
    PendingAreOrdered(q.order, q.completed);
  }
}
