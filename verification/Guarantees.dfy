/** Step by step: every step of every call keeps the invariants and stays within the rely condition. */
module Guarantees {
  import opened Prelude
  import opened Domain
  import opened Adapters
  import opened Protocol
  import opened Invariants

  /** What a step from `w` to `v` must deliver. */
  ghost predicate Guaranteed(w: World, v: World, progress: Progress) {
    && WorldOk(v) && Rely(w, v)
    && (progress.Continue? ==> CallOk(v, progress.call))
  }

  // ----- Steps on the store -----

  function Inserted(s: Store, added: Workflow, key: string): Store {
    Store(s.workflows[added.workflowId := added], s.idempotency[(added.ownerId, key) := added.workflowId])
  }

  lemma InsertionKeepsKeys(s: Store, added: Workflow, key: string)
    requires KeysOk(s) && added.workflowId !in s.workflows && (added.ownerId, key) !in s.idempotency
    ensures KeysOk(Inserted(s, added, key))
  {
    var t := Inserted(s, added, key);
    assert t.idempotency[(added.ownerId, key)] == added.workflowId;
    forall id | id in t.workflows ensures exists k :: k in t.idempotency && t.idempotency[k] == id {
      if id != added.workflowId {
        var k :| k in s.idempotency && s.idempotency[k] == id;
        assert k in t.idempotency && t.idempotency[k] == id;
      }
    }
  }

  lemma InsertionIsSafe(w: World, added: Workflow, key: string)
    requires WorldOk(w) && added.workflowId !in w.store.workflows && (added.ownerId, key) !in w.store.idempotency
    requires Sound(added) && added.status == Received
    ensures var s := Inserted(w.store, added, key); WorldOk(w.(store := s)) && Rely(w, w.(store := s))
  {
    hide Sound, QueueOk, KeysOk, StoreRely, ExecutionsOk;
    var s := Inserted(w.store, added, key);
    InsertionKeepsKeys(w.store, added, key);
    InsertionEvolves(w.store, added, key);
    InsertionCompletesNothing(w, added, key);
    WorldOkAfterStore(w, s);
  }

  lemma InsertionEvolves(s: Store, added: Workflow, key: string)
    requires added.workflowId !in s.workflows && (added.ownerId, key) !in s.idempotency
    ensures StoreRely(s, Inserted(s, added, key))
  {
    hide Evolves;
    forall i | i in s.workflows ensures Evolves(s.workflows[i], Inserted(s, added, key).workflows[i]) {
      EvolvesReflexive(s.workflows[i]);
    }
  }

  lemma InsertionCompletesNothing(w: World, added: Workflow, key: string)
    requires ExecutionsOk(w.store, w.executions) && added.status == Received
    ensures var s := Inserted(w.store, added, key);
            forall id :: id in s.workflows ==> ResultIsRecord(s.workflows[id], w.executions)
  {
  }

  lemma CreatingGuarantees(env: Services, w: World, call: Call, input: Input)
    requires WorldOk(w) && CallOk(w, call) && call.Creating? && input.freshId !in w.store.workflows
    ensures var (v, progress) := Resume(env, w, call, input); Guaranteed(w, v, progress)
  {
    hide Sound, Evolves, QueueOk, WorldOk, Rely;
    var d := call.draft;
    var created := Receive(input.freshId, d.ownerId, d.request, d.requestedLocale, d.context, d.decision, d.createdAt);
    ReceivedIsSound(input.freshId, d.ownerId, d.request, d.requestedLocale, d.context, d.decision, d.createdAt);
    if (d.ownerId, call.key) in w.store.idempotency {
      RelyReflexive(w);
    } else {
      InsertionIsSafe(w, created, call.key);
    }
  }

  lemma StoringContinues(w: World, call: Call)
    requires CallOk(w, call) && call.Storing?
    requires Snapshot(Replaced(w.store, call.next), call.next)
    ensures var progress := AfterStoring(call.action, call.next, call.held);
            progress.Continue? ==> CallOk(w.(store := Replaced(w.store, call.next)), progress.call)
  {
    hide Sound, Evolves;
    var s := Replaced(w.store, call.next);
    assert s.workflows[call.snapshot.workflowId] == call.next;
    SoundProposalApproval(call.snapshot);
  }

  /** The parts of a sound workflow that workers rely on. */
  lemma SoundProposalApproval(w: Workflow)
    requires Sound(w)
    ensures w.status in {Approved, Executing, Completed} ==>
              && w.actionProposal.Some? && w.approvalDecision.Some?
              && w.approvalDecision.value.verdict == Approve
              && w.approvalDecision.value.proposalDigest == w.actionProposal.value.proposalDigest
  {
  }

  lemma StoringStep(env: Services, w: World, call: Call, input: Input)
    requires WorldOk(w) && CallOk(w, call) && call.Storing?
    ensures var (v, progress) := Resume(env, w, call, input); Guaranteed(w, v, progress)
  {
    hide Sound, Evolves, WorldOk, Rely, Enabled, Apply, HoldsWhatItNeeds;
    StoringGuarantees(w, call);
    UpdateHitsSnapshot(w, call.snapshot, call.next);
    if w.store.workflows[call.snapshot.workflowId] == call.snapshot {
      StoringContinues(w, call);
    }
  }

  // ----- Steps on the queue -----

  lemma EnqueueGuarantees(w: World, task: ExecutionTask)
    requires WorldOk(w) && TaskBound(w.store, task)
    ensures var (q, r) := w.queue.Enqueued(task);
            WorldOk(w.(queue := q)) && Rely(w, w.(queue := q)) && r.Ok?
  {
    hide Sound, Evolves, KeysOk, ExecutionsOk;
    RelyReflexive(w);
  }

  lemma ClaimGuarantees(w: World)
    requires WorldOk(w)
    ensures var (q, r) := w.queue.Claimed();
            WorldOk(w.(queue := q)) && Rely(w, w.(queue := q)) && (r.Some? ==> TaskBound(w.store, r.value))
  {
    hide StoreOk, Evolves, KeysOk, ExecutionsOk, Pending;
    PendingAreOrdered(w.queue.order, w.queue.completed);
    RelyReflexive(w);
  }

  lemma AcknowledgeGuarantees(w: World, id: TaskId)
    requires WorldOk(w) && Finished(w.store, id.workflowId)
    ensures WorldOk(w.(queue := w.queue.Acknowledged(id))) && Rely(w, w.(queue := w.queue.Acknowledged(id)))
  {
    hide Sound, Evolves, KeysOk, ExecutionsOk;
    RelyReflexive(w);
  }

  // ----- The worker's steps -----

  lemma ClaimedStep(env: Services, w: World, call: Call, input: Input)
    requires WorldOk(w) && CallOk(w, call) && call.Claimed?
    ensures var (v, progress) := Resume(env, w, call, input); Guaranteed(w, v, progress)
  {
    hide Sound, Evolves, KeysOk, ExecutionsOk, QueueOk, Rely;
    RelyReflexive(w);
    if call.task.workflowId in w.store.workflows {
      EvolvesReflexive(w.store.workflows[call.task.workflowId]);
    }
  }

  lemma JudgingStep(env: Services, w: World, call: Call, input: Input)
    requires WorldOk(w) && CallOk(w, call) && call.Judging?
    ensures var (v, progress) := Resume(env, w, call, input); Guaranteed(w, v, progress)
  {
    hide Sound, Evolves, WorldOk, Rely, WorkFits;
    RelyReflexive(w);
  }

  /** The executor never refuses a worker, and what it returns is the record it keeps. */
  lemma ExecuteGuarantees(w: World, work: Work, now: Time)
    requires WorldOk(w)
    requires work.task.workflowId in w.store.workflows && WorkFits(work, w.store.workflows[work.task.workflowId])
    requires w.store.workflows[work.task.workflowId].status in {Executing, Completed}
    ensures var (executions, r) := Executed(w.executions, work.task, work.proposal, now);
            && WorldOk(w.(executions := executions)) && Rely(w, w.(executions := executions))
            && r.Ok?
            && r.value.idempotencyKey == work.task.idempotencyKey
            && r.value.proposalDigest == work.proposal.proposalDigest
            && r.value.idempotencyKey in executions && executions[r.value.idempotencyKey] == r.value
  {
    hide Sound, Evolves, KeysOk, QueueOk;
    RelyReflexive(w);
    var key := work.task.idempotencyKey;
    if key in w.executions {
      assert Recorded(w.store, key, w.executions[key]);
    }
  }

  lemma RunningStep(env: Services, w: World, call: Call, input: Input)
    requires WorldOk(w) && CallOk(w, call) && call.Running?
    ensures var (v, progress) := Resume(env, w, call, input); Guaranteed(w, v, progress) && progress.Continue?
  {
    hide Sound, WorldOk, Rely;
    var current := w.store.workflows[call.snapshot.workflowId];
    assert Evolves(call.snapshot, current);
    assert current.status in {Executing, Completed} && current.actionProposal == call.snapshot.actionProposal;
    assert WorkFits(call.work, current);
    assert current.workflowId == call.work.task.workflowId;
    ExecuteGuarantees(w, call.work, call.now);
    SoundProposalApproval(call.snapshot);
  }

  // ----- Every step -----

  lemma ResumeGuarantees(env: Services, w: World, call: Call, input: Input)
    requires WorldOk(w) && CallOk(w, call)
    requires call.Creating? ==> input.freshId !in w.store.workflows
    ensures var (v, progress) := Resume(env, w, call, input); Guaranteed(w, v, progress)
  {
    match call
    case Creating(_, _) => CreatingGuarantees(env, w, call, input);
    case Storing(_, _, _, _) => StoringStep(env, w, call, input);
    case Enqueueing(task, _) => EnqueueGuarantees(w, task);
    case Claimed(_) => ClaimedStep(env, w, call, input);
    case Judging(_, _, _) => JudgingStep(env, w, call, input);
    case Running(_, _, _) => RunningStep(env, w, call, input);
    case Acknowledging(task, _) => AcknowledgeGuarantees(w, task.taskId);
    case _ => LocalStep(env, w, call, input);
  }

  lemma LocalStep(env: Services, w: World, call: Call, input: Input)
    requires WorldOk(w) && CallOk(w, call)
    requires call.Proposing? || call.Applying? || call.Deciding?
    ensures var (v, progress) := Resume(env, w, call, input); Guaranteed(w, v, progress)
  {
    hide Sound, Evolves, WorldOk, Rely;
    RelyReflexive(w);
  }

  lemma StartKeepsStore(env: Services, w: World, request: Request, now: Time)
    requires Bound(w)
    ensures Accept(env, w, request, now).0.store == w.store
  {
  }

  lemma AcceptGuarantees(env: Services, w: World, request: Request, now: Time)
    requires RunsAllNodes(env)
    requires WorldOk(w) && (request.ExecuteTask? ==> WellFormedTask(request.task))
    ensures var (v, progress) := Accept(env, w, request, now); Guaranteed(w, v, progress)
  {
    hide Sound, Evolves, KeysOk, ExecutionsOk, QueueOk, Rely;
    RelyReflexive(w);
    match request
    case ProcessNextTask(_) => ClaimGuarantees(w);
    case PlanWorkflow(_, id) =>
      if id in w.store.workflows {
        EvolvesReflexive(w.store.workflows[id]);
      }
    case DecideApproval(_, id, _, _, _) =>
      if id in w.store.workflows {
        EvolvesReflexive(w.store.workflows[id]);
      }
    case _ =>
  }
}
