/** What every interleaving of the calls keeps, and what each call may count on from the others. */
module Invariants {
  import opened Prelude
  import opened Domain
  import opened Adapters
  import opened Protocol
  import Governance
  import Planning

  // ----- The shared state -----

  /** The runtime reports the seven nodes in order; `Planning.ReturnedPlanIsSound` shows that the graph does. */
  ghost predicate RunsAllNodes(env: Services) {
    forall input :: env.plan(input).Ok? ==> env.plan(input).value.completedStates == Planning.NODES
  }

  lemma GraphRunsAllNodes(env: Services, rt: Planning.Runtime)
    requires forall input :: env.plan(input) == Planning.Plan(rt, input)
    ensures RunsAllNodes(env)
  {
    forall input | env.plan(input).Ok? ensures env.plan(input).value.completedStates == Planning.NODES {
      Planning.ReturnedPlanIsSound(rt, input);
    }
  }

  ghost predicate StoreOk(s: Store) {
    && s.Bound()
    && forall id :: id in s.workflows ==> s.workflows[id].workflowId == id && Sound(s.workflows[id])
  }

  /** Idempotency keys and stored workflows correspond one to one, within the owner's scope. */
  ghost predicate KeysOk(s: Store) {
    && (forall k :: k in s.idempotency ==>
          s.idempotency[k] in s.workflows && s.workflows[s.idempotency[k]].ownerId == k.0)
    && (forall j, k :: j in s.idempotency && k in s.idempotency && s.idempotency[j] == s.idempotency[k] ==> j == k)
    && (forall id :: id in s.workflows ==> exists k :: k in s.idempotency && s.idempotency[k] == id)
  }

  /** The task is the one made for an approved proposal of a stored workflow. */
  ghost predicate TaskBound(s: Store, task: ExecutionTask) {
    && task.workflowId in s.workflows
    && task.taskId == TaskId(task.workflowId)
    && task.idempotencyKey == TicketKey(task.workflowId, task.proposalDigest)
    && var w := s.workflows[task.workflowId];
       && w.actionProposal.Some? && w.actionProposal.value.proposalDigest == task.proposalDigest
       && w.approvalDecision.Some? && w.approvalDecision.value.verdict == Approve
  }

  ghost predicate Finished(s: Store, id: string) {
    id in s.workflows && s.workflows[id].status in {Completed, Expired}
  }

  ghost predicate QueueOk(s: Store, q: Queue) {
    && (forall id :: id in q.order <==> id in q.tasks)
    && NoRepeats(q.order)
    && (forall id :: id in q.tasks ==> q.tasks[id].taskId == id && TaskBound(s, q.tasks[id]))
    && (forall id :: id in q.completed ==> Finished(s, id.workflowId))
  }

  /** The record is the ticket for the proposal of a workflow that is executing or completed. */
  ghost predicate Recorded(s: Store, k: ExecutionKey, record: ToolExecutionResult) {
    && k.workflowId in s.workflows
    && record.idempotencyKey == k && record.proposalDigest == k.proposal && record.executionId == (k, k.proposal)
    && var w := s.workflows[k.workflowId];
       && w.status in {Executing, Completed}
       && w.actionProposal.Some? && w.actionProposal.value.proposalDigest == k.proposal
  }

  ghost predicate ResultIsRecord(w: Workflow, executions: Executions) {
    w.status == Completed ==>
      && w.actionProposal.Some?
      && TicketKey(w.workflowId, w.actionProposal.value.proposalDigest) in executions
      && w.executionResult == Some(executions[TicketKey(w.workflowId, w.actionProposal.value.proposalDigest)])
  }

  ghost predicate ExecutionsOk(s: Store, executions: Executions) {
    && (forall k :: k in executions ==> Recorded(s, k, executions[k]))
    && (forall id :: id in s.workflows ==> ResultIsRecord(s.workflows[id], executions))
  }

  ghost predicate WorldOk(w: World) {
    && Bound(w)
    && StoreOk(w.store)
    && KeysOk(w.store)
    && QueueOk(w.store, w.queue)
    && ExecutionsOk(w.store, w.executions)
  }

  lemma WorldIsBound(w: World)
    requires WorldOk(w)
    ensures Bound(w)
  {
  }

  // ----- The rely condition: all that other calls can do meanwhile -----

  ghost predicate StoreRely(s: Store, t: Store) {
    && (forall id :: id in s.workflows ==> id in t.workflows && Evolves(s.workflows[id], t.workflows[id]))
    && (forall k :: k in s.idempotency ==> k in t.idempotency && t.idempotency[k] == s.idempotency[k])
  }

  ghost predicate QueueRely(q: Queue, r: Queue) {
    && (forall id :: id in q.tasks ==>
          && id in r.tasks
          && q.tasks[id].deliveryAttempt <= r.tasks[id].deliveryAttempt
          && r.tasks[id] == q.tasks[id].(deliveryAttempt := r.tasks[id].deliveryAttempt))
    && q.order <= r.order
    && q.completed <= r.completed
  }

  ghost predicate ExecutionsRely(a: Executions, b: Executions) {
    forall k :: k in a ==> k in b && b[k] == a[k]
  }

  ghost predicate Rely(v: World, w: World) {
    && StoreRely(v.store, w.store)
    && QueueRely(v.queue, w.queue)
    && ExecutionsRely(v.executions, w.executions)
  }

  lemma EvolvesReflexive(w: Workflow)
    ensures Evolves(w, w)
  {
  }

  lemma RelyReflexive(w: World)
    ensures Rely(w, w)
  {
  }

  lemma RelyComposes(u: World, v: World, w: World)
    requires Rely(u, v) && Rely(v, w)
    ensures Rely(u, w)
  {
    forall id | id in u.store.workflows
      ensures id in w.store.workflows && Evolves(u.store.workflows[id], w.store.workflows[id])
    {
      EvolutionComposes(u.store.workflows[id], v.store.workflows[id], w.store.workflows[id]);
    }
    PrefixTransitive(u.queue.order, v.queue.order, w.queue.order);
  }

  // ----- What each call in flight knows -----

  /** The snapshot is an earlier, or the current, value of a stored workflow. */
  ghost predicate Snapshot(s: Store, w: Workflow) {
    w.workflowId in s.workflows && Sound(w) && Evolves(w, s.workflows[w.workflowId])
  }

  /** A worker's task and proposal agree with the workflow it read. */
  ghost predicate WorkFits(work: Work, w: Workflow) {
    && work.task.workflowId == w.workflowId
    && work.task.taskId == TaskId(w.workflowId)
    && w.actionProposal == Some(work.proposal)
    && work.task.proposalDigest == work.proposal.proposalDigest
    && work.task.idempotencyKey == TicketKey(w.workflowId, work.proposal.proposalDigest)
  }

  /** A call holds a task exactly when the stored action is followed by work on it. */
  ghost predicate HoldsWhatItNeeds(executions: Executions, snapshot: Workflow, action: Action, held: Option<Work>) {
    && (held.Some? ==> WorkFits(held.value, snapshot))
    && match action
       case Plan(_, _, _, _) => held.None?
       case Decide(approval, _) => held.Some? <==> approval.verdict == Approve
       case LetExpire(_) => held.Some? <==> snapshot.status == Approved
       case Begin(_, _, _) => held.Some?
       case Complete(record, _) =>
         held.Some? && record.idempotencyKey in executions && executions[record.idempotencyKey] == record
  }

  ghost predicate CallOk(w: World, call: Call) {
    match call
    case Creating(draft, _) => draft.context.operation == Governance.WorkflowIntake && draft.decision.executionAllowed
    case Proposing(snapshot, result, decision) =>
      && Snapshot(w.store, snapshot) && snapshot.status == Received
      && result.completedStates == Planning.NODES && decision.executionAllowed
    case Applying(snapshot, result, decision, proposal) =>
      && Snapshot(w.store, snapshot) && snapshot.status == Received
      && result.completedStates == Planning.NODES && decision.executionAllowed
      && proposal == CreateToolProposal(snapshot.workflowId, result, proposal.expiresAt - PROPOSAL_LIFETIME)
    case Deciding(snapshot, proposal, reviewerId, _, _, _) =>
      && Snapshot(w.store, snapshot) && snapshot.status == AwaitingApproval
      && snapshot.actionProposal == Some(proposal) && reviewerId != snapshot.ownerId
    case Storing(snapshot, action, next, held) =>
      && Snapshot(w.store, snapshot)
      && Enabled(snapshot, action) && next == Apply(snapshot, action)
      && HoldsWhatItNeeds(w.executions, snapshot, action, held)
    case Enqueueing(task, _) => TaskBound(w.store, task)
    case Claimed(task) => WellFormedTask(task)
    case Judging(work, snapshot, approval) =>
      Snapshot(w.store, snapshot) && WorkFits(work, snapshot) && snapshot.approvalDecision == Some(approval)
    case Running(work, snapshot, _) =>
      Snapshot(w.store, snapshot) && WorkFits(work, snapshot) && snapshot.status == Executing
    case Acknowledging(task, _) => task.taskId == TaskId(task.workflowId) && Finished(w.store, task.workflowId)
  }

  // ----- Stability: what a call knows survives whatever the others do -----

  lemma SnapshotStable(s: Store, t: Store, w: Workflow)
    requires Snapshot(s, w) && StoreRely(s, t)
    ensures Snapshot(t, w)
  {
    hide Sound;
    EvolutionComposes(w, s.workflows[w.workflowId], t.workflows[w.workflowId]);
  }

  lemma TaskBoundStable(s: Store, t: Store, task: ExecutionTask)
    requires TaskBound(s, task) && StoreRely(s, t)
    ensures TaskBound(t, task)
  {
    assert Evolves(s.workflows[task.workflowId], t.workflows[task.workflowId]);
  }

  lemma FinishedStable(s: Store, t: Store, id: string)
    requires Finished(s, id) && StoreRely(s, t)
    ensures Finished(t, id)
  {
    assert Evolves(s.workflows[id], t.workflows[id]);
  }

  lemma RecordedStable(s: Store, t: Store, k: ExecutionKey, record: ToolExecutionResult)
    requires Recorded(s, k, record) && StoreRely(s, t)
    ensures Recorded(t, k, record)
  {
    assert Evolves(s.workflows[k.workflowId], t.workflows[k.workflowId]);
  }

  lemma CallStable(v: World, w: World, call: Call)
    requires CallOk(v, call) && Rely(v, w)
    ensures CallOk(w, call)
  {
    hide Snapshot, StoreRely, QueueRely, TaskBound, Finished, Enabled, Apply, WorkFits;
    match call
    case Creating(_, _) =>
    case Claimed(_) =>
    case Enqueueing(task, _) => TaskBoundStable(v.store, w.store, task);
    case Acknowledging(task, _) => FinishedStable(v.store, w.store, task.workflowId);
    case _ => SnapshotStable(v.store, w.store, call.snapshot);
  }

  // ----- Guarantee: each step keeps the shared state well formed and stays within the rely condition -----

  /** Growing the store keeps queue and executions in order, provided new completions carry their record. */
  lemma WorldOkAfterStore(w: World, s: Store)
    requires WorldOk(w) && s.Bound() && StoreOk(s) && KeysOk(s) && StoreRely(w.store, s)
    requires forall id :: id in s.workflows ==> ResultIsRecord(s.workflows[id], w.executions)
    ensures WorldOk(w.(store := s))
    ensures Rely(w, w.(store := s))
  {
    hide StoreOk, KeysOk, StoreRely, TaskBound, Finished, Recorded, ResultIsRecord;
    forall id | id in w.queue.tasks ensures TaskBound(s, w.queue.tasks[id]) {
      TaskBoundStable(w.store, s, w.queue.tasks[id]);
    }
    forall id | id in w.queue.completed ensures Finished(s, id.workflowId) {
      FinishedStable(w.store, s, id.workflowId);
    }
    forall k | k in w.executions ensures Recorded(s, k, w.executions[k]) {
      RecordedStable(w.store, s, k, w.executions[k]);
    }
  }

  /** A version-checked update succeeds only on the snapshot itself. */
  lemma UpdateHitsSnapshot(w: World, snapshot: Workflow, next: Workflow)
    requires Snapshot(w.store, snapshot) && next.workflowId == snapshot.workflowId
    ensures w.store.Updated(next, snapshot.stateVersion).1.Ok?
            <==> w.store.workflows[snapshot.workflowId] == snapshot
  {
    hide Sound;
  }

  lemma EvolutionKeepsIdentity(w: Workflow, v: Workflow)
    requires Evolves(w, v)
    ensures v.workflowId == w.workflowId && v.ownerId == w.ownerId
  {
  }

  /** A completion about to be stored carries the record the executor holds for it. */
  lemma CompletionIsRecorded(w: World, call: Call)
    requires CallOk(w, call) && call.Storing?
    ensures ResultIsRecord(call.next, w.executions)
  {
    hide Snapshot, Sound, WorkFits, Visiting, CreateApprovalDecision, CreateToolProposal;
  }

  lemma KeysSurviveUpdate(s: Store, next: Workflow)
    requires KeysOk(s)
    requires next.workflowId in s.workflows && next.ownerId == s.workflows[next.workflowId].ownerId
    ensures KeysOk(s.(workflows := s.workflows[next.workflowId := next]))
  {
  }

  function Replaced(s: Store, next: Workflow): Store {
    s.(workflows := s.workflows[next.workflowId := next])
  }

  /** Replacing a stored workflow by a sound evolution of it. */
  lemma ReplacementIsSafe(w: World, next: Workflow)
    requires WorldOk(w) && next.workflowId in w.store.workflows
    requires Sound(next) && Evolves(w.store.workflows[next.workflowId], next)
    requires ResultIsRecord(next, w.executions)
    ensures WorldOk(w.(store := Replaced(w.store, next)))
    ensures Rely(w, w.(store := Replaced(w.store, next)))
    ensures Snapshot(Replaced(w.store, next), next)
  {
    hide Sound, Evolves, QueueOk, KeysOk, ResultIsRecord;
    var s := Replaced(w.store, next);
    forall i | i in w.store.workflows ensures Evolves(w.store.workflows[i], s.workflows[i]) {
      EvolvesReflexive(w.store.workflows[i]);
    }
    EvolvesReflexive(next);
    EvolutionKeepsIdentity(w.store.workflows[next.workflowId], next);
    KeysSurviveUpdate(w.store, next);
    WorldOkAfterStore(w, s);
  }

  /** The update either applies the call's action to the current value, or changes nothing. */
  lemma StoringGuarantees(w: World, call: Call)
    requires WorldOk(w) && CallOk(w, call) && call.Storing?
    ensures var s := w.store.Updated(call.next, call.snapshot.stateVersion).0;
            && WorldOk(w.(store := s)) && Rely(w, w.(store := s))
            && call.next.workflowId == call.snapshot.workflowId
            && if w.store.workflows[call.snapshot.workflowId] == call.snapshot
               then s == Replaced(w.store, call.next) && Snapshot(s, call.next)
               else s == w.store
  {
    hide Sound, Evolves, WorldOk, Rely, Apply, Enabled;
    ActionsEvolve(call.snapshot, call.action);
    ActionsKeepSound(call.snapshot, call.action);
    EvolutionKeepsIdentity(call.snapshot, call.next);
    UpdateHitsSnapshot(w, call.snapshot, call.next);
    CompletionIsRecorded(w, call);
    if w.store.workflows[call.snapshot.workflowId] == call.snapshot {
      ReplacementIsSafe(w, call.next);
    } else {
      RelyReflexive(w);
    }
  }
}
