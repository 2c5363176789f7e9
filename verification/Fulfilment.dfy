/** Every call in flight serves an entitled request, every success is what was asked for, and every delivery, effect
    and acknowledgement was somebody's to make. */
module Fulfilment {
  import opened Prelude
  import opened Domain
  import opened Adapters
  import opened Protocol
  import opened Invariants
  import opened Runs
  import opened Draining
  import Requests

  // ----- What a request asks for -----

  predicate DecidedAs(w: Workflow, verdict: Verdict, key: string) {
    && w.approvalDecision.Some?
    && w.approvalDecision.value.verdict == verdict && w.approvalDecision.value.idempotencyKey == key
  }

  /** The workflow was carried out, with a record for this proposal. */
  predicate CarriedOut(w: Workflow, proposal: Digest) {
    w.status == Completed && w.executionResult.Some? && w.executionResult.value.proposalDigest == proposal
  }

  /** A success is what the request asked for. */
  predicate Fulfils(r: Request, outcome: Outcome) {
    outcome.Ok? ==>
      var v := outcome.value;
      match r
      case CreateWorkflow(principal, text, locale, _, _, _, _) =>
        v.ownerId == principal.subject && v.request == Requests.Normalize(text) && v.requestedLocale == Lower(locale)
      case PlanWorkflow(_, id) => v.workflowId == id && v.planningResult.Some?
      case DecideApproval(_, id, verdict, _, key) => v.workflowId == id && DecidedAs(v, verdict, key)
      case ProcessNextTask(_) => v.status == Completed && v.executionResult.Some?
      case ExecuteTask(task) => v.workflowId == task.workflowId && CarriedOut(v, task.proposalDigest)
  }

  /** The task a worker's call is about. */
  function TaskOf(call: Call): Option<ExecutionTask> {
    match call
    case Claimed(task) => Some(task)
    case Judging(work, _, _) => Some(work.task)
    case Running(work, _, _) => Some(work.task)
    case Acknowledging(task, _) => Some(task)
    case Storing(_, action, _, Some(held)) => if action.Plan? || action.Decide? then None else Some(held.task)
    case _ => None
  }

  /** The call is under way to do what this request, by someone entitled to it, asks for. */
  predicate Serving(call: Call, r: Request) {
    match r
    case CreateWorkflow(principal, text, locale, key, _, _, overlayIds) =>
      && principal.roles * {Requester, Administrator} != {}
      && call.Creating? && call.key == key
      && call.draft.ownerId == principal.subject && call.draft.request == Requests.Normalize(text)
      && call.draft.requestedLocale == Lower(locale)
    case PlanWorkflow(principal, id) =>
      && (call.Proposing? || call.Applying? || (call.Storing? && call.action.Plan?))
      && call.snapshot.workflowId == id
      && (call.snapshot.ownerId == principal.subject || Administrator in principal.roles)
    case DecideApproval(principal, id, verdict, reason, key) =>
      principal.roles * {Reviewer, Administrator} != {} && DecidesFor(call, principal, id, verdict, reason, key)
    case ProcessNextTask(principal) => MayProcess(principal) && WorkingOn(call)
    case ExecuteTask(task) =>
      && WorkingOn(call)
      && TaskOf(call).value.workflowId == task.workflowId && TaskOf(call).value.proposalDigest == task.proposalDigest
  }

  predicate DecidesFor(call: Call, principal: Principal, id: string, verdict: Verdict, reason: string, key: string) {
    match call
    case Deciding(snapshot, _, reviewerId, v, because, k) =>
      && snapshot.workflowId == id && snapshot.ownerId != principal.subject
      && reviewerId == principal.subject && v == verdict && because == reason && k == key
    case Storing(snapshot, Decide(approval, _), _, held) =>
      && snapshot.workflowId == id && snapshot.ownerId != principal.subject
      && approval.reviewerId == principal.subject && approval.verdict == verdict
      && approval.reason == reason && approval.idempotencyKey == key
      && (held.Some? ==> held.value.task.deliveryAttempt == 0)
    case Storing(snapshot, LetExpire(_), _, None) => snapshot.workflowId == id
    case Enqueueing(task, stored) =>
      stored.workflowId == id && stored.ownerId != principal.subject && DecidedAs(stored, verdict, key)
      && verdict == Approve && task.deliveryAttempt == 0
    case _ => false
  }

  /** The call works on a task, and if it is going to report success, the task was carried out. */
  predicate WorkingOn(call: Call) {
    && TaskOf(call).Some?
    && (call.Acknowledging? && call.outcome.Ok? ==>
          call.outcome.value.workflowId == call.task.workflowId
          && CarriedOut(call.outcome.value, call.task.proposalDigest))
  }

  // ----- One event -----

  lemma StartServes(env: Services, w: World, r: Request, now: Time)
    requires WorldOk(w)
    ensures Bound(w)
    ensures match Accept(env, w, r, now).1
            case Return(outcome) => Fulfils(r, outcome)
            case Continue(call) => Serving(call, r)
  {
    hide Sound, KeysOk, QueueOk, ExecutionsOk, Pending;
  }

  lemma CreationFulfils(env: Services, w: World, call: Call, r: Request, input: Input)
    requires WorldOk(w) && r.CreateWorkflow? && Serving(call, r)
    ensures var progress := Resume(env, w, call, input).1; progress.Return? && Fulfils(r, progress.outcome)
  {
    hide Sound, QueueOk, ExecutionsOk;
  }

  lemma PlanningFulfils(env: Services, w: World, call: Call, r: Request, input: Input)
    requires WorldOk(w) && CallOk(w, call) && r.PlanWorkflow? && Serving(call, r)
    ensures match Resume(env, w, call, input).1
            case Return(outcome) => Fulfils(r, outcome)
            case Continue(next) => Serving(next, r)
  {
    hide Sound, Evolves, KeysOk, QueueOk, ExecutionsOk, StoreOk;
  }

  lemma DecisionFulfils(env: Services, w: World, call: Call, r: Request, input: Input)
    requires WorldOk(w) && CallOk(w, call) && r.DecideApproval? && Serving(call, r)
    ensures match Resume(env, w, call, input).1
            case Return(outcome) => Fulfils(r, outcome)
            case Continue(next) => Serving(next, r)
  {
    hide Sound, Evolves, KeysOk, QueueOk, ExecutionsOk, StoreOk;
  }

  /** What a worker's step leaves it doing, on the same task. */
  lemma WorkFulfils(env: Services, w: World, call: Call, input: Input)
    requires WorldOk(w) && CallOk(w, call) && WorkingOn(call)
    ensures match Resume(env, w, call, input).1
            case Return(outcome) =>
              outcome.Ok? ==> outcome.value.workflowId == TaskOf(call).value.workflowId
                              && CarriedOut(outcome.value, TaskOf(call).value.proposalDigest)
            case Continue(next) => WorkingOn(next) && TaskOf(next) == TaskOf(call)
  {
    hide Sound, Evolves, KeysOk, QueueOk, ExecutionsOk;
  }

  lemma StepServes(env: Services, w: World, call: Call, r: Request, input: Input)
    requires WorldOk(w) && CallOk(w, call) && Serving(call, r)
    ensures Bound(w)
    ensures match Resume(env, w, call, input).1
            case Return(outcome) => Fulfils(r, outcome)
            case Continue(next) => Serving(next, r)
  {
    hide WorldOk, CallOk, Resume;
    WorldIsBound(w);
    match r
    case CreateWorkflow(_, _, _, _, _, _, _) => CreationFulfils(env, w, call, r, input);
    case PlanWorkflow(_, _) => PlanningFulfils(env, w, call, r, input);
    case DecideApproval(_, _, _, _, _) => DecisionFulfils(env, w, call, r, input);
    case ProcessNextTask(_) => WorkFulfils(env, w, call, input);
    case ExecuteTask(_) => WorkFulfils(env, w, call, input);
  }

  // ----- Whole runs -----

  /** A processing call by someone who may make it is handed the first waiting task, which is this one. */
  predicate IsDelivery(s: State, e: Event, id: string) {
    && e.Start? && e.request.ProcessNextTask? && MayProcess(e.request.principal)
    && s.world.queue.Waiting() != [] && s.world.queue.Waiting()[0] == TaskId(id)
  }

  /** The event hands the task of this workflow to a worker: an operator's processing call gets it, or it is given
      directly. */
  predicate GivesWork(s: State, e: Event, id: string) {
    IsDelivery(s, e, id) || (e.Start? && e.request.ExecuteTask? && e.request.task.workflowId == id)
  }

  ghost predicate WorkGiven(states: seq<State>, events: seq<Event>, i: nat, id: string)
    requires i < |states| == |events| + 1
  {
    exists n :: 0 <= n < i && GivesWork(states[n], events[n], id)
  }

  /** The call began with this event, and was given its task by it if it is a worker's. */
  predicate Began(states: seq<State>, events: seq<Event>, n: nat, c: nat, call: Call)
    requires n < |events| == |states| - 1
  {
    && events[n].Start? && events[n].id == c && Serving(call, events[n].request)
    && (TaskOf(call).Some? ==> GivesWork(states[n], events[n], TaskOf(call).value.workflowId))
  }

  ghost predicate HasBegun(states: seq<State>, events: seq<Event>, i: nat, c: nat, call: Call)
    requires i < |states| == |events| + 1
  {
    exists n :: 0 <= n < i && Began(states, events, n, c, call)
  }

  /** How often the task was delivered. */
  function Deliveries(states: seq<State>, events: seq<Event>, i: nat, id: string): nat
    requires i < |states| == |events| + 1
  {
    if i == 0 then 0
    else Deliveries(states, events, i - 1, id) + if IsDelivery(states[i - 1], events[i - 1], id) then 1 else 0
  }

  /** Every call in flight has begun; what workers leave behind on a workflow was theirs to do. */
  ghost predicate AllGiven(states: seq<State>, events: seq<Event>, i: nat)
    requires i < |states| == |events| + 1
  {
    var s := states[i];
    && (forall c :: c in s.calls ==> HasBegun(states, events, i, c, s.calls[c]))
    && (forall k :: k in s.world.executions ==> WorkGiven(states, events, i, k.workflowId))
    && (forall t :: t in s.world.queue.completed ==> WorkGiven(states, events, i, t.workflowId))
    && (forall id :: id in s.world.store.workflows && s.world.store.workflows[id].status in {Executing, Completed}
                     ==> WorkGiven(states, events, i, id))
  }

  lemma HasBegunLater(states: seq<State>, events: seq<Event>, i: nat, c: nat, call: Call)
    requires i + 1 < |states| == |events| + 1 && HasBegun(states, events, i, c, call)
    ensures HasBegun(states, events, i + 1, c, call)
  {
  }

  /** A worker's call that is started is handed the task of the event. */
  lemma StartGivesWork(env: Services, s: State, c: nat, r: Request, now: Time)
    requires WorldOk(s.world)
    ensures Bound(s.world)
    ensures var (v, progress) := Accept(env, s.world, r, now);
            && v.executions == s.world.executions && v.store == s.world.store
            && v.queue.completed == s.world.queue.completed
            && (progress.Continue? && TaskOf(progress.call).Some? ==>
                  GivesWork(s, Start(c, r, now), TaskOf(progress.call).value.workflowId))
  {
    hide StoreOk, KeysOk, QueueOk, ExecutionsOk, Pending, TaskBound;
    WorldIsBound(s.world);
    if r.ProcessNextTask? && s.world.queue.Waiting() != [] {
      ClaimTakesTheHead(s.world);
    }
  }

  /** New records and acknowledgements concern the workflow of the worker's task, which stays the same... */
  lemma RecordsUseWork(env: Services, w: World, call: Call, input: Input)
    requires Bound(w) && CallOk(w, call)
    ensures var (v, progress) := Resume(env, w, call, input);
            && (forall k :: k in v.executions && k !in w.executions ==>
                  TaskOf(call).Some? && k.workflowId == TaskOf(call).value.workflowId)
            && (forall t :: t in v.queue.completed && t !in w.queue.completed ==>
                  TaskOf(call).Some? && t.workflowId == TaskOf(call).value.workflowId)
            && (progress.Continue? && TaskOf(progress.call).Some? ==> TaskOf(progress.call) == TaskOf(call))
  {
    hide Sound, Evolves, Snapshot, Enabled, Apply;
  }

  /** ...and so do workflows that come to execute or to complete. */
  lemma StatusesUseWork(env: Services, w: World, call: Call, input: Input)
    requires WorldOk(w) && CallOk(w, call)
    ensures Bound(w)
    ensures var v := Resume(env, w, call, input).0;
            forall id :: id in v.store.workflows && v.store.workflows[id].status in {Executing, Completed} ==>
              || (id in w.store.workflows && w.store.workflows[id].status in {Executing, Completed})
              || (TaskOf(call).Some? && id == TaskOf(call).value.workflowId)
  {
    hide WorldOk, CallOk, Resume;
    WorldIsBound(w);
    if call.Storing? {
      StoringUsesWork(env, w, call, input);
    } else {
      OthersStartNothing(env, w, call, input);
    }
  }

  lemma OthersStartNothing(env: Services, w: World, call: Call, input: Input)
    requires Bound(w) && !call.Storing?
    ensures var v := Resume(env, w, call, input).0;
            forall id :: id in v.store.workflows && v.store.workflows[id].status in {Executing, Completed} ==>
              id in w.store.workflows && w.store.workflows[id].status in {Executing, Completed}
  {
  }

  lemma StoringUsesWork(env: Services, w: World, call: Call, input: Input)
    requires WorldOk(w) && CallOk(w, call) && call.Storing?
    ensures Bound(w)
    ensures var v := Resume(env, w, call, input).0;
            forall id :: id in v.store.workflows && v.store.workflows[id].status in {Executing, Completed} ==>
              || (id in w.store.workflows && w.store.workflows[id].status in {Executing, Completed})
              || (TaskOf(call).Some? && id == TaskOf(call).value.workflowId)
  {
    hide WorldOk, Sound, Evolves;
    WorldIsBound(w);
    UpdateAppliesToCurrent(env, w, call, input);
  }

  lemma StepKeepsGiven(env: Services, states: seq<State>, events: seq<Event>, i: nat)
    requires i + 1 < |states| == |events| + 1
    requires IsStep(env, states[i], events[i], states[i + 1]) && StateOk(states[i])
    requires AllGiven(states, events, i)
    ensures AllGiven(states, events, i + 1)
  {
    hide WorldOk, CallOk, Accept, Resume, Serving, Began, GivesWork;
    var s, e, t := states[i], events[i], states[i + 1];
    match e {
      case Start(c, r, now) =>
        StartServes(env, s.world, r, now);
        StartGivesWork(env, s, c, r, now);
      case Step(c, input) =>
        RecordsUseWork(env, s.world, s.calls[c], input);
        StatusesUseWork(env, s.world, s.calls[c], input);
      case Crash(_) =>
    }
    forall c | c in t.calls ensures HasBegun(states, events, i + 1, c, t.calls[c]) {
      NextHasBegun(env, states, events, i, c);
    }
    if e.Step? && TaskOf(s.calls[e.id]).Some? {
      WorkWasGiven(states, events, i, e.id);
    }
  }

  lemma WorkWasGiven(states: seq<State>, events: seq<Event>, i: nat, c: nat)
    requires i < |states| == |events| + 1 && c in states[i].calls && HasBegun(states, events, i, c, states[i].calls[c])
    requires TaskOf(states[i].calls[c]).Some?
    ensures WorkGiven(states, events, i, TaskOf(states[i].calls[c]).value.workflowId)
  {
    hide Serving;
  }

  lemma NextHasBegun(env: Services, states: seq<State>, events: seq<Event>, i: nat, c: nat)
    requires i + 1 < |states| == |events| + 1
    requires IsStep(env, states[i], events[i], states[i + 1]) && StateOk(states[i])
    requires forall d :: d in states[i].calls ==> HasBegun(states, events, i, d, states[i].calls[d])
    requires c in states[i + 1].calls
    ensures HasBegun(states, events, i + 1, c, states[i + 1].calls[c])
  {
    hide WorldOk, CallOk, Accept, Resume, Serving, GivesWork;
    var s, e, t := states[i], events[i], states[i + 1];
    if c in s.calls && t.calls[c] == s.calls[c] {
      HasBegunLater(states, events, i, c, s.calls[c]);
    } else {
      match e
      case Start(_, r, now) =>
        StartServes(env, s.world, r, now);
        StartGivesWork(env, s, c, r, now);
        assert Began(states, events, i, c, t.calls[c]);
      case Step(_, input) =>
        var n :| 0 <= n < i && Began(states, events, n, c, s.calls[c]);
        StepServes(env, s.world, s.calls[c], events[n].request, input);
        RecordsUseWork(env, s.world, s.calls[c], input);
        assert Began(states, events, n, c, t.calls[c]);
      case Crash(_) =>
    }
  }

  /** In any run: every call in flight goes back to a request that entitles to it, and every execution, completion and
      acknowledgement to a processing call by an operator or administrator that was handed this task, or to a task
      given directly. */
  lemma {:induction false} EverythingWasGiven(env: Services, states: seq<State>, events: seq<Event>, i: nat)
    requires RunsAllNodes(env) && IsRun(env, states, events) && i < |states|
    ensures StateOk(states[i]) && AllGiven(states, events, i)
  {
    hide AllGiven, StateOk, Possible, Next;
    EveryRunIsOk(env, states, events, i);
    if i == 0 {
      assert AllGiven(states, events, 0) by {
        NothingGiven(states, events);
      }
    } else {
      EverythingWasGiven(env, states, events, i - 1);
      assert IsStep(env, states[i - 1], events[i - 1], states[i - 1 + 1]);
      StepKeepsGiven(env, states, events, i - 1);
    }
  }

  lemma NothingGiven(states: seq<State>, events: seq<Event>)
    requires |states| == |events| + 1 && Initial(states[0])
    ensures AllGiven(states, events, 0)
  {
  }

  /** In any run, every success a call returns is what its request asked for. */
  lemma EverySuccessFulfils(env: Services, states: seq<State>, events: seq<Event>, n: nat)
    requires RunsAllNodes(env) && IsRun(env, states, events) && n < |events|
    ensures IsStep(env, states[n], events[n], states[n + 1])
    ensures match events[n]
            case Start(_, r, now) =>
              var progress := Accept(env, states[n].world, r, now).1; progress.Return? ==> Fulfils(r, progress.outcome)
            case Step(c, input) =>
              var progress := Resume(env, states[n].world, states[n].calls[c], input).1;
              progress.Return? ==> exists m :: 0 <= m < n && AskedAs(events[m], c, progress.outcome)
            case Crash(_) => true
  {
    hide AllGiven, WorldOk, CallOk, Accept, Resume, Initial, Serving, Fulfils;
    EverythingWasGiven(env, states, events, n);
    assert IsStep(env, states[n], events[n], states[n + 1]);
    match events[n]
    case Start(_, r, now) => StartServes(env, states[n].world, r, now);
    case Step(c, input) =>
      assert HasBegun(states, events, n, c, states[n].calls[c]) by {
        BegunInFlight(states, events, n, c);
      }
      var m :| 0 <= m < n && Began(states, events, m, c, states[n].calls[c]);
      StepServes(env, states[n].world, states[n].calls[c], events[m].request, input);
      assert Resume(env, states[n].world, states[n].calls[c], input).1.Return? ==>
          AskedAs(events[m], c, Resume(env, states[n].world, states[n].calls[c], input).1.outcome);
    case Crash(_) =>
  }

  /** The event started this call with a request that the outcome fulfils. */
  predicate AskedAs(e: Event, c: nat, outcome: Outcome) {
    e.Start? && e.id == c && Fulfils(e.request, outcome)
  }

  lemma BegunInFlight(states: seq<State>, events: seq<Event>, i: nat, c: nat)
    requires i < |states| == |events| + 1 && AllGiven(states, events, i) && c in states[i].calls
    ensures HasBegun(states, events, i, c, states[i].calls[c])
  {
  }

  // ----- Counting deliveries -----

  /** The attempts counted on the tasks so far. */
  ghost predicate Counted(states: seq<State>, events: seq<Event>, i: nat)
    requires i < |states| == |events| + 1
  {
    forall id :: CountedFor(states, events, i, id)
  }

  predicate CountedFor(states: seq<State>, events: seq<Event>, i: nat, id: string)
    requires i < |states| == |events| + 1
  {
    Deliveries(states, events, i, id)
    == if TaskId(id) in states[i].world.queue.tasks
       then states[i].world.queue.tasks[TaskId(id)].deliveryAttempt else 0
  }

  lemma StartCounts(env: Services, s: State, c: nat, r: Request, now: Time, id: string)
    requires WorldOk(s.world)
    ensures Bound(s.world)
    ensures var before, after := s.world.queue.tasks, Accept(env, s.world, r, now).0.queue.tasks;
            && (TaskId(id) in after <==> TaskId(id) in before)
            && (IsDelivery(s, Start(c, r, now), id) ==> TaskId(id) in before)
            && (TaskId(id) in before ==>
                  after[TaskId(id)].deliveryAttempt
                  == before[TaskId(id)].deliveryAttempt + if IsDelivery(s, Start(c, r, now), id) then 1 else 0)
  {
    hide StoreOk, KeysOk, QueueOk, ExecutionsOk, Pending, TaskBound;
    WorldIsBound(s.world);
    if r.ProcessNextTask? && s.world.queue.Waiting() != [] {
      ClaimTakesTheHead(s.world);
    }
  }

  lemma StepCounts(env: Services, w: World, call: Call, r: Request, input: Input, id: string)
    requires Bound(w) && CallOk(w, call) && Serving(call, r)
    ensures var before, after := w.queue.tasks, Resume(env, w, call, input).0.queue.tasks;
            && (TaskId(id) in before ==> TaskId(id) in after && after[TaskId(id)] == before[TaskId(id)])
            && (TaskId(id) in after && TaskId(id) !in before ==> after[TaskId(id)].deliveryAttempt == 0)
  {
    hide Sound, Evolves, Snapshot, Enabled, Apply;
  }

  /** In any run the attempts counted on a task are the processing calls, by people who may make them, that were
      handed it: none is lost or invented by interleaving or crashes. */
  lemma {:induction false} AttemptsAreDeliveries(env: Services, states: seq<State>, events: seq<Event>, i: nat)
    requires RunsAllNodes(env) && IsRun(env, states, events) && i < |states|
    ensures Counted(states, events, i)
  {
    hide StateOk, Possible, Next, AllGiven, IsDelivery;
    if i > 0 {
      AttemptsAreDeliveries(env, states, events, i - 1);
      EverythingWasGiven(env, states, events, i - 1);
      assert IsStep(env, states[i - 1], events[i - 1], states[i - 1 + 1]);
      forall id ensures CountedFor(states, events, i, id) {
        StepCountsFor(env, states, events, i - 1, id);
      }
    }
  }

  lemma StepCountsFor(env: Services, states: seq<State>, events: seq<Event>, i: nat, id: string)
    requires i + 1 < |states| == |events| + 1
    requires IsStep(env, states[i], events[i], states[i + 1]) && StateOk(states[i]) && AllGiven(states, events, i)
    requires CountedFor(states, events, i, id)
    ensures CountedFor(states, events, i + 1, id)
  {
    hide WorldOk, CallOk, Accept, Resume, Serving;
    match events[i]
    case Start(c, r, now) => StartCounts(env, states[i], c, r, now, id);
    case Step(c, input) =>
      var n :| 0 <= n < i && Began(states, events, n, c, states[i].calls[c]);
      StepCounts(env, states[i].world, states[i].calls[c], events[n].request, input, id);
    case Crash(_) =>
  }
}
