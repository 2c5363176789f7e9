/** Safety over whole runs: any number of calls, interleaved and interrupted in any way. */
module Runs {
  import opened Prelude
  import opened Domain
  import opened Adapters
  import opened Protocol
  import opened Invariants
  import opened Guarantees
  import Planning
  import Requests

  ghost predicate StateOk(s: State) {
    && WorldOk(s.world)
    && forall id :: id in s.calls ==> CallOk(s.world, s.calls[id])
  }

  function InputOf(w: Workflow): Planning.PlanningInput {
    Planning.PlanningInput(w.workflowId, w.ownerId, w.request, w.requestedLocale)
  }

  predicate HasExpired(w: World, id: string) {
    id in w.store.workflows && w.store.workflows[id].status == Expired
  }

  lemma EmptyWorldIsOk()
    ensures WorldOk(EMPTY_WORLD)
  {
  }

  /** The world and the fate of the moving call; every other call keeps what it knows. */
  lemma SettledCallsOk(s: State, id: nat, v: World, progress: Progress)
    requires StateOk(s) && Guaranteed(s.world, v, progress)
    ensures forall i :: i in Settle(s.calls, id, progress) ==> CallOk(v, Settle(s.calls, id, progress)[i])
  {
    hide WorldOk, Rely, CallOk;
    forall i | i in Settle(s.calls, id, progress) ensures CallOk(v, Settle(s.calls, id, progress)[i]) {
      if !(i == id && progress.Continue?) {
        CallStable(s.world, v, s.calls[i]);
      }
    }
  }

  lemma StepKeepsOk(env: Services, s: State, e: Event)
    requires RunsAllNodes(env) && StateOk(s) && Bound(s.world) && Possible(s, e)
    ensures StateOk(Next(env, s, e)) && Rely(s.world, Next(env, s, e).world)
  {
    hide WorldOk, Rely, CallOk, Accept, Resume, RunsAllNodes;
    match e
    case Start(id, request, now) =>
      AcceptGuarantees(env, s.world, request, now);
      var (v, progress) := Accept(env, s.world, request, now);
      SettledCallsOk(s, id, v, progress);
    case Step(id, input) =>
      ResumeGuarantees(env, s.world, s.calls[id], input);
      var (v, progress) := Resume(env, s.world, s.calls[id], input);
      SettledCallsOk(s, id, v, progress);
    case Crash(id) =>
      RelyReflexive(s.world);
  }

  /** Every state of every run satisfies the invariants. */
  lemma {:induction false} EveryRunIsOk(env: Services, states: seq<State>, events: seq<Event>, i: nat)
    requires RunsAllNodes(env) && IsRun(env, states, events) && i < |states|
    ensures StateOk(states[i])
  {
    hide WorldOk, CallOk, Rely, Possible, Next;
    if i == 0 {
      EmptyWorldIsOk();
    } else {
      EveryRunIsOk(env, states, events, i - 1);
      assert IsStep(env, states[i - 1], events[i - 1], states[i - 1 + 1]);
      StepKeepsOk(env, states[i - 1], events[i - 1]);
    }
  }

  /** Append-only evolution: from any point of a run to any later one, workflows evolve, keys keep their meaning,
      tasks, acknowledgements and execution records are only added. */
  lemma {:induction false} RunsOnlyEvolve(env: Services, states: seq<State>, events: seq<Event>, i: nat, j: nat)
    requires RunsAllNodes(env) && IsRun(env, states, events) && i <= j < |states|
    ensures Rely(states[i].world, states[j].world)
    decreases j
  {
    hide WorldOk, CallOk, Rely, Possible, Next;
    if i == j {
      RelyReflexive(states[i].world);
    } else {
      RunsOnlyEvolve(env, states, events, i, j - 1);
      EveryRunIsOk(env, states, events, j - 1);
      assert IsStep(env, states[j - 1], events[j - 1], states[j - 1 + 1]);
      StepKeepsOk(env, states[j - 1], events[j - 1]);
      RelyComposes(states[i].world, states[j - 1].world, states[j].world);
    }
  }

  // ----- Linearizability of the version check -----

  /** One atomic step of the sequential lifecycle, or none: a new received workflow, or one legal action
      on the current value of one workflow. */
  ghost predicate LifecycleStep(a: map<string, Workflow>, b: map<string, Workflow>) {
    || b == a
    || (exists id :: id !in a && id in b && b == a[id := b[id]] && b[id].status == Received && Sound(b[id]))
    || (exists id, action :: id in a && Enabled(a[id], action) && b == a[id := Apply(a[id], action)])
  }

  /** Whatever the interleaving, each step changes the stored workflows by at most one sequential lifecycle step. */
  lemma StepsAreSequential(env: Services, s: State, e: Event)
    requires StateOk(s) && Bound(s.world) && Possible(s, e)
    ensures LifecycleStep(s.world.store.workflows, Next(env, s, e).world.store.workflows)
  {
    hide Sound, Evolves, KeysOk, QueueOk, ExecutionsOk, Apply, Enabled, HoldsWhatItNeeds;
    if e.Step? {
      var call := s.calls[e.id];
      if call.Storing? {
        UpdateAppliesToCurrent(env, s.world, call, e.input);
        var id := call.snapshot.workflowId;
        if s.world.store.workflows[id] == call.snapshot {
          assert Enabled(s.world.store.workflows[id], call.action);
        }
      } else if call.Creating? {
        var d := call.draft;
        ReceivedIsSound(e.input.freshId, d.ownerId, d.request, d.requestedLocale, d.context, d.decision, d.createdAt);
      }
    }
  }

  /** A version-checked update is accepted exactly when the call's snapshot is the stored value; it then performs the
      call's action on that value. Otherwise it is refused and nothing changes, so no update overwrites another. */
  lemma UpdateAppliesToCurrent(env: Services, w: World, call: Call, input: Input)
    requires WorldOk(w) && CallOk(w, call) && call.Storing?
    ensures var (v, progress) := Resume(env, w, call, input);
            var id, current := call.snapshot.workflowId, w.store.workflows[call.snapshot.workflowId];
            && (current.stateVersion == call.snapshot.stateVersion <==> current == call.snapshot)
            && if current == call.snapshot
               then && Enabled(current, call.action)
                    && v == w.(store := w.store.(workflows := w.store.workflows[id := Apply(current, call.action)]))
                    && progress != Return(Err(InvalidWorkflowState))
               else v == w && progress == Return(Err(InvalidWorkflowState))
  {
    hide Sound, WorldOk, Rely, Apply, Enabled, HoldsWhatItNeeds;
    WorldIsBound(w);
    StoringGuarantees(w, call);
    UpdateHitsSnapshot(w, call.snapshot, call.next);
  }

  // ----- At most one effect -----

  ghost predicate OneRecordPerWorkflow(executions: Executions) {
    forall j, k :: j in executions && k in executions && j.workflowId == k.workflowId ==> j == k
  }

  /** At any time of any run each workflow has at most one execution record; later it is still there, unchanged;
      and a completed workflow reports exactly its record. */
  lemma AtMostOneEffect(env: Services, states: seq<State>, events: seq<Event>, i: nat, j: nat)
    requires RunsAllNodes(env) && IsRun(env, states, events) && i <= j < |states|
    ensures var (a, b) := (states[i].world, states[j].world);
            && OneRecordPerWorkflow(b.executions)
            && (forall k :: k in a.executions ==> k in b.executions && b.executions[k] == a.executions[k])
            && (forall id :: id in b.store.workflows && b.store.workflows[id].status == Completed ==>
                  exists k :: k in b.executions && k.workflowId == id
                              && b.store.workflows[id].executionResult == Some(b.executions[k]))
  {
    EveryRunIsOk(env, states, events, j);
    RunsOnlyEvolve(env, states, events, i, j);
    RecordsAreUnique(states[j].world);
  }

  lemma RecordsAreUnique(w: World)
    requires WorldOk(w)
    ensures OneRecordPerWorkflow(w.executions)
    ensures forall id :: id in w.store.workflows && w.store.workflows[id].status == Completed ==>
              exists k :: k in w.executions && k.workflowId == id
                          && w.store.workflows[id].executionResult == Some(w.executions[k])
  {
    hide Sound, KeysOk, QueueOk;
    forall j, k | j in w.executions && k in w.executions && j.workflowId == k.workflowId ensures j == k {
      assert Recorded(w.store, j, w.executions[j]) && Recorded(w.store, k, w.executions[k]);
    }
    forall id | id in w.store.workflows && w.store.workflows[id].status == Completed
      ensures exists k :: k in w.executions && k.workflowId == id
                          && w.store.workflows[id].executionResult == Some(w.executions[k])
    {
      var v := w.store.workflows[id];
      assert ResultIsRecord(v, w.executions);
      assert TicketKey(id, v.actionProposal.value.proposalDigest) in w.executions;
    }
  }

  /** No conflict branch of the queue or the executor is ever taken, and completion never lacks its approval. */
  lemma ConflictsNeverHappen(env: Services, w: World, call: Call, input: Input)
    requires WorldOk(w) && CallOk(w, call)
    requires call.Enqueueing? || call.Running?
    ensures call.Enqueueing? ==> Resume(env, w, call, input).1 == Return(Ok(call.stored))
    ensures call.Running? ==> Resume(env, w, call, input).1.Continue?
  {
    if call.Running? {
      RunningStep(env, w, call, input);
    } else {
      EnqueueGuarantees(w, call.task);
    }
  }

  // ----- Authorised, timely effects -----

  /** The digested arguments of the ticket are the workflow and its plan, nothing else. */
  ghost predicate TicketSaysThePlan(w: Workflow) {
    && w.actionProposal.Some? && w.planningResult.Some?
    && w.actionProposal.value.proposalDigest
       == ActionDigest(TicketArguments(w.workflowId, w.planningResult.value.proposal.summary,
                                       w.planningResult.value.proposal.complexity,
                                       w.planningResult.value.proposal.deliverySteps))
  }

  /** Someone other than the owner approved this very proposal, and execution began while that approval was valid. */
  ghost predicate AuthorisedInTime(w: Workflow, k: ExecutionKey, record: ToolExecutionResult) {
    && w.actionProposal.Some? && w.approvalDecision.Some? && w.planningResult.Some?
    && var p, a := w.actionProposal.value, w.approvalDecision.value;
       && a.verdict == Approve && a.reviewerId != w.ownerId
       && record.proposalDigest == k.proposal == p.proposalDigest == a.proposalDigest
       && record.idempotencyKey == k && record.executionId == (k, k.proposal)
       && |w.transitions| > STARTED_AT && w.transitions[STARTED_AT].current == Executing
       && w.transitions[STARTED_AT].at <= a.expiresAt
       && w.transitions[DECIDED_AT].current == Approved && w.transitions[DECIDED_AT].at == a.decidedAt
       && w.transitions[STARTED_AT].at <= a.decidedAt + 15 * 60
       && (exists created: Time ::
             && p == CreateToolProposal(w.workflowId, w.planningResult.value, created)
             && w.transitions[STARTED_AT].at <= created + 30 * 60)
       && TicketSaysThePlan(w)
       && |w.governanceDecisions| == 3
       && (forall i :: 0 <= i < 3 ==> w.governanceDecisions[i].executionAllowed)
  }

  /** The task queued for the key's workflow, if there is one, is for the same proposal and makes the same key. */
  predicate TaskAgrees(q: Queue, k: ExecutionKey) {
    TaskId(k.workflowId) in q.tasks ==>
      q.tasks[TaskId(k.workflowId)].proposalDigest == k.proposal && q.tasks[TaskId(k.workflowId)].idempotencyKey == k
  }

  lemma TaskAgreesWithRecord(w: World, k: ExecutionKey)
    requires WorldOk(w) && k in w.executions
    ensures TaskAgrees(w.queue, k)
  {
    hide Sound, KeysOk, ResultIsRecord;
    assert Recorded(w.store, k, w.executions[k]);
    var id := TaskId(k.workflowId);
    if id in w.queue.tasks {
      assert TaskBound(w.store, w.queue.tasks[id]) && w.queue.tasks[id].taskId == id;
    }
  }

  /** Every side effect on record was authorised by a reviewer and started in time: at most 15 minutes after the
      decision and 30 minutes after the proposal. No assumption is made about the clock. */
  lemma EffectsAreAuthorised(env: Services, states: seq<State>, events: seq<Event>, i: nat)
    requires RunsAllNodes(env) && IsRun(env, states, events) && i < |states|
    ensures var w := states[i].world;
            forall k :: k in w.executions ==>
              && k.workflowId in w.store.workflows
              && AuthorisedInTime(w.store.workflows[k.workflowId], k, w.executions[k])
              && TaskAgrees(w.queue, k)
  {
    EveryRunIsOk(env, states, events, i);
    var w := states[i].world;
    forall k | k in w.executions
      ensures && k.workflowId in w.store.workflows
              && AuthorisedInTime(w.store.workflows[k.workflowId], k, w.executions[k])
              && TaskAgrees(w.queue, k)
    {
      RecordIsAuthorised(w, k);
      TaskAgreesWithRecord(w, k);
    }
  }

  lemma ApprovalIsOnThePath(w: Workflow)
    requires Sound(w) && w.status in {Executing, Completed}
    ensures |w.transitions| > DECIDED_AT && w.transitions[DECIDED_AT].current == Approved
  {
    hide HasParts, Governed, PlannedPath;
    assert PathOf(w)[DECIDED_AT] == Approved;
  }

  lemma RecordIsAuthorised(w: World, k: ExecutionKey)
    requires WorldOk(w) && k in w.executions
    ensures k.workflowId in w.store.workflows
    ensures AuthorisedInTime(w.store.workflows[k.workflowId], k, w.executions[k])
  {
    hide KeysOk, QueueOk, FollowsPath, Evolves, ResultIsRecord;
    assert Recorded(w.store, k, w.executions[k]);
    var v := w.store.workflows[k.workflowId];
    assert Sound(v) && HasParts(v) && Governed(v);
    ApprovalIsOnThePath(v);
    var created := v.actionProposal.value.expiresAt - PROPOSAL_LIFETIME;
    assert v.actionProposal.value == CreateToolProposal(v.workflowId, v.planningResult.value, created);
  }

  // ----- No work is lost -----

  predicate Claimable(q: Queue, id: string) {
    TaskId(id) in q.Waiting()
  }

  /** An acknowledged task means a finished workflow, so an approved or executing workflow whose task was ever
      enqueued stays claimable, crashes or not. */
  lemma EnqueuedWorkStaysClaimable(env: Services, states: seq<State>, events: seq<Event>, i: nat, j: nat, id: string)
    requires RunsAllNodes(env) && IsRun(env, states, events) && i <= j < |states|
    requires TaskId(id) in states[i].world.queue.tasks
    ensures id in states[j].world.store.workflows
    ensures states[j].world.store.workflows[id].status in {Approved, Executing} ==> Claimable(states[j].world.queue, id)
    ensures TaskId(id) in states[j].world.queue.completed ==>
              states[j].world.store.workflows[id].status in {Completed, Expired}
  {
    EveryRunIsOk(env, states, events, j);
    RunsOnlyEvolve(env, states, events, i, j);
    WorkIsClaimable(states[j].world, id);
  }

  lemma WorkIsClaimable(w: World, id: string)
    requires WorldOk(w) && TaskId(id) in w.queue.tasks
    ensures id in w.store.workflows
    ensures TaskId(id) in w.queue.completed ==> w.store.workflows[id].status in {Completed, Expired}
    ensures Claimable(w.queue, id) <==> TaskId(id) !in w.queue.completed
  {
    hide Sound, KeysOk, ExecutionsOk;
    PendingAreOrdered(w.queue.order, w.queue.completed);
    assert TaskBound(w.store, w.queue.tasks[TaskId(id)]);
  }

  /** If the enqueue after an approval was lost, deciding again with the recorded key makes the work claimable
      and returns the workflow; one new task joins the end of the queue if it was not there, and nothing else changes. */
  lemma ReplayedDecisionRestoresTask(env: Services, w: World, request: Request, input: Input, later: Time)
    requires WorldOk(w) && request.DecideApproval? && request.workflowId in w.store.workflows
    requires var v := w.store.workflows[request.workflowId];
             && v.status in {Approved, Executing}
             && v.approvalDecision.Some?
             && request.key == v.approvalDecision.value.idempotencyKey && request.verdict == Approve
             && request.principal.subject != v.ownerId
             && request.principal.roles * {Reviewer, Administrator} != {}
    ensures var (u, outcome) := Serve(env, w, request, input, later);
            && outcome == Ok(w.store.workflows[request.workflowId])
            && Claimable(u.queue, request.workflowId)
            && w.store.workflows[request.workflowId].actionProposal.Some?
            && var task := CreateExecutionTask(request.workflowId,
                                               w.store.workflows[request.workflowId].actionProposal.value.proposalDigest);
               u == if task.taskId in w.queue.tasks then w
                    else w.(queue := w.queue.(tasks := w.queue.tasks[task.taskId := task],
                                              order := w.queue.order + [task.taskId]))
  {
    hide KeysOk, ExecutionsOk, Sound, Evolves, Pending;
    var v := w.store.workflows[request.workflowId];
    SoundProposalApproval(v);
    var task := CreateExecutionTask(v.workflowId, v.actionProposal.value.proposalDigest);
    assert Accept(env, w, request, input.now).1 == Continue(Enqueueing(task, v));
    EnqueueGuarantees(w, task);
    var u := w.(queue := w.queue.Enqueued(task).0);
    WorkIsClaimable(u, request.workflowId);
    assert RunToEnd(env, w, Enqueueing(task, v), input, later) == (u, Ok(v));
  }

  // ----- Creation is idempotent -----

  /** Along any run a key, once used, keeps naming one stored workflow of its owner, and no other key names it. */
  lemma KeysNameOneWorkflow(env: Services, states: seq<State>, events: seq<Event>, i: nat, j: nat, k: (string, string))
    requires RunsAllNodes(env) && IsRun(env, states, events) && i <= j < |states|
    requires k in states[i].world.store.idempotency
    ensures var s, t := states[i].world.store, states[j].world.store;
            && k in t.idempotency && t.idempotency[k] == s.idempotency[k]
            && s.idempotency[k] in s.workflows
            && t.idempotency[k] in t.workflows
            && t.workflows[t.idempotency[k]].ownerId == k.0
            && t.workflows[t.idempotency[k]].request == s.workflows[s.idempotency[k]].request
            && (forall k' :: k' in t.idempotency && t.idempotency[k'] == t.idempotency[k] ==> k' == k)
            && (forall id :: id in t.workflows ==> exists k' :: k' in t.idempotency && t.idempotency[k'] == id)
  {
    EveryRunIsOk(env, states, events, i);
    EveryRunIsOk(env, states, events, j);
    RunsOnlyEvolve(env, states, events, i, j);
    var s, t := states[i].world.store, states[j].world.store;
    assert Evolves(s.workflows[s.idempotency[k]], t.workflows[s.idempotency[k]]);
  }

  /** A used key answers with the workflow as it now is when request and locale match, and with a conflict when not;
      either way nothing changes. */
  lemma UsedKeyReplays(env: Services, w: World, r: Request, input: Input, later: Time)
    requires WorldOk(w) && r.CreateWorkflow? && Accept(env, w, r, input.now).1.Continue?
    requires (r.principal.subject, r.key) in w.store.idempotency
    ensures var existing := w.store.workflows[w.store.idempotency[(r.principal.subject, r.key)]];
            Serve(env, w, r, input, later)
            == (w, if existing.request == Requests.Normalize(r.request)
                      && existing.requestedLocale == Lower(r.requestedLocale)
                   then Ok(existing) else Err(IdempotencyConflict))
  {
    hide Sound, KeysOk, QueueOk, ExecutionsOk;
  }

  /** An unused key stores a new workflow with the normalised request. */
  lemma UnusedKeyCreates(env: Services, w: World, r: Request, input: Input, later: Time)
    requires WorldOk(w) && r.CreateWorkflow? && Accept(env, w, r, input.now).1.Continue?
    requires (r.principal.subject, r.key) !in w.store.idempotency && input.freshId !in w.store.workflows
    ensures var (v, outcome) := Serve(env, w, r, input, later);
            && outcome.Ok?
            && outcome.value.workflowId == input.freshId && outcome.value.status == Received
            && outcome.value.createdAt == input.now && outcome.value.stateVersion == 1
            && outcome.value.request == Requests.Normalize(r.request)
            && outcome.value.requestedLocale == Lower(r.requestedLocale)
            && v == w.(store := Inserted(w.store, outcome.value, r.key))
            && outcome.value.ownerId == r.principal.subject
  {
    hide Sound, KeysOk, QueueOk, ExecutionsOk;
  }

  /** Creating, then anything at all, then creating again under the same key: the second call gets the first
      workflow exactly when the two requests have the same words and the same locale up to case. */
  lemma CreateThenReplay(env: Services, w: World, a: Request, b: Request, x: Input, y: Input, t: Time, u: Time, later: World)
    requires WorldOk(w) && a.CreateWorkflow? && b.CreateWorkflow?
    requires a.principal.subject == b.principal.subject && a.key == b.key
    requires Accept(env, w, a, x.now).1.Continue?
    requires (a.principal.subject, a.key) !in w.store.idempotency && x.freshId !in w.store.workflows
    requires WorldOk(later) && Rely(Serve(env, w, a, x, t).0, later)
    requires Accept(env, later, b, y.now).1.Continue?
    ensures x.freshId in later.store.workflows
    ensures Serve(env, later, b, y, u)
            == (later, if Requests.Words(a.request) == Requests.Words(b.request)
                          && SameUpToCase(a.requestedLocale, b.requestedLocale)
                       then Ok(later.store.workflows[x.freshId]) else Err(IdempotencyConflict))
  {
    hide Sound, KeysOk, ExecutionsOk, Accept, Serve, QueueRely, Lower, SameUpToCase;
    UnusedKeyCreates(env, w, a, x, t);
    var (v, outcome) := Serve(env, w, a, x, t);
    assert v.store.idempotency[(a.principal.subject, a.key)] == x.freshId;
    assert Evolves(v.store.workflows[x.freshId], later.store.workflows[x.freshId]);
    UsedKeyReplays(env, later, b, y, u);
    Requests.SameNormalFormMeansSameWords(a.request, b.request);
    LowerEqualsUpToCase(a.requestedLocale, b.requestedLocale);
  }
}
