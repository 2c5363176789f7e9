/** Everything on record goes back to a request by someone entitled to make it. */
module Provenance {
  import opened Prelude
  import opened Domain
  import opened Adapters
  import opened Protocol
  import opened Invariants
  import opened Guarantees
  import opened Runs
  import Requests

  /** A request by the owner, as requester or administrator, whose normal form is the stored text. */
  predicate IsCreation(e: Event, ownerId: string, request: string, locale: string) {
    && e.Start? && e.request.CreateWorkflow?
    && e.request.principal.subject == ownerId
    && e.request.principal.roles * {Requester, Administrator} != {}
    && (set id | id in e.request.overlayIds) == {COMMON_OVERLAY}
    && request == Requests.Normalize(e.request.request) && locale == Lower(e.request.requestedLocale)
  }

  /** A planning request for this workflow by its owner or an administrator. */
  predicate IsPlanning(e: Event, workflowId: string, ownerId: string) {
    && e.Start? && e.request.PlanWorkflow?
    && e.request.workflowId == workflowId
    && (e.request.principal.subject == ownerId || Administrator in e.request.principal.roles)
  }

  /** A decision on this workflow, with these words, by this reviewer holding a reviewing role. */
  predicate IsDecision(e: Event, workflowId: string, reviewerId: string, verdict: Verdict, reason: string, key: string) {
    && e.Start? && e.request.DecideApproval?
    && e.request.workflowId == workflowId
    && e.request.principal.subject == reviewerId
    && e.request.principal.roles * {Reviewer, Administrator} != {}
    && e.request.verdict == verdict && e.request.reason == reason && e.request.key == key
  }

  ghost predicate CreationAsked(events: seq<Event>, ownerId: string, request: string, locale: string) {
    exists n :: 0 <= n < |events| && IsCreation(events[n], ownerId, request, locale)
  }

  ghost predicate PlanningAsked(events: seq<Event>, workflowId: string, ownerId: string) {
    exists n :: 0 <= n < |events| && IsPlanning(events[n], workflowId, ownerId)
  }

  ghost predicate DecisionAsked(events: seq<Event>, workflowId: string, reviewerId: string, verdict: Verdict,
                                reason: string, key: string)
  {
    exists n :: 0 <= n < |events| && IsDecision(events[n], workflowId, reviewerId, verdict, reason, key)
  }

  ghost predicate ApprovalAsked(events: seq<Event>, workflowId: string, a: ApprovalDecision) {
    DecisionAsked(events, workflowId, a.reviewerId, a.verdict, a.reason, a.idempotencyKey)
  }

  /** The workflow, its plan and its decision were each asked for. */
  ghost predicate WorkflowTraced(events: seq<Event>, w: Workflow) {
    && CreationAsked(events, w.ownerId, w.request, w.requestedLocale)
    && (w.planningResult.Some? ==> PlanningAsked(events, w.workflowId, w.ownerId))
    && (w.approvalDecision.Some? ==> ApprovalAsked(events, w.workflowId, w.approvalDecision.value))
  }

  ghost predicate CallTraced(events: seq<Event>, call: Call) {
    match call
    case Creating(d, _) => CreationAsked(events, d.ownerId, d.request, d.requestedLocale)
    case Proposing(snapshot, _, _) => PlanningAsked(events, snapshot.workflowId, snapshot.ownerId)
    case Applying(snapshot, _, _, _) => PlanningAsked(events, snapshot.workflowId, snapshot.ownerId)
    case Deciding(snapshot, _, reviewerId, verdict, reason, key) =>
      DecisionAsked(events, snapshot.workflowId, reviewerId, verdict, reason, key)
    case Storing(snapshot, action, _, _) =>
      && (action.Plan? ==> PlanningAsked(events, snapshot.workflowId, snapshot.ownerId))
      && (action.Decide? ==> ApprovalAsked(events, snapshot.workflowId, action.approval))
    case _ => true
  }

  ghost predicate Traced(events: seq<Event>, s: State) {
    && (forall id :: id in s.world.store.workflows ==> WorkflowTraced(events, s.world.store.workflows[id]))
    && (forall c :: c in s.calls ==> CallTraced(events, s.calls[c]))
  }

  lemma WorkflowTracedLater(events: seq<Event>, e: Event, w: Workflow)
    requires WorkflowTraced(events, w)
    ensures WorkflowTraced(events + [e], w)
  {
    assert forall n :: 0 <= n < |events| ==> (events + [e])[n] == events[n];
  }

  lemma CallTracedLater(events: seq<Event>, e: Event, call: Call)
    requires CallTraced(events, call)
    ensures CallTraced(events + [e], call)
  {
    assert forall n :: 0 <= n < |events| ==> (events + [e])[n] == events[n];
  }

  /** A call that gets past its first access was asked for by someone entitled to. */
  lemma StartIsTraced(env: Services, events: seq<Event>, w: World, id: nat, request: Request, now: Time)
    requires Bound(w) && WorldOk(w)
    ensures var progress := Accept(env, w, request, now).1;
            progress.Continue? ==> CallTraced(events + [Start(id, request, now)], progress.call)
  {
    hide Sound, KeysOk, QueueOk, ExecutionsOk, Pending;
    var all := events + [Start(id, request, now)];
    assert all[|events|] == Start(id, request, now);
  }

  /** An accepted update leaves the workflow traced. */
  lemma AppliedIsTraced(events: seq<Event>, call: Call)
    requires call.Storing? && Enabled(call.snapshot, call.action) && call.next == Apply(call.snapshot, call.action)
    requires WorkflowTraced(events, call.snapshot) && CallTraced(events, call)
    ensures WorkflowTraced(events, call.next)
  {
    hide CreationAsked, PlanningAsked, DecisionAsked;
  }

  lemma ContinuationIsTraced(env: Services, events: seq<Event>, w: World, call: Call, input: Input)
    requires Bound(w) && CallTraced(events, call)
    ensures var progress := Resume(env, w, call, input).1; progress.Continue? ==> CallTraced(events, progress.call)
  {
    hide CreationAsked, PlanningAsked, DecisionAsked, Pending;
  }

  lemma StoreIsTraced(env: Services, events: seq<Event>, s: State, c: nat, input: Input)
    requires StateOk(s) && Traced(events, s) && Bound(s.world) && Possible(s, Step(c, input))
    ensures var v := Resume(env, s.world, s.calls[c], input).0;
            forall id :: id in v.store.workflows ==> WorkflowTraced(events, v.store.workflows[id])
  {
    hide CreationAsked, PlanningAsked, DecisionAsked, WorldOk, Apply, Enabled, Sound, Evolves, HoldsWhatItNeeds, Pending;
    var call := s.calls[c];
    assert CallOk(s.world, call) && CallTraced(events, call);
    if call.Storing? {
      StoringGuarantees(s.world, call);
      var id := call.snapshot.workflowId;
      if s.world.store.workflows[id] == call.snapshot {
        AppliedIsTraced(events, call);
      }
    }
  }

  lemma StepIsTraced(env: Services, events: seq<Event>, s: State, e: Event)
    requires StateOk(s) && Traced(events, s) && Bound(s.world) && Possible(s, e)
    ensures Traced(events + [e], Next(env, s, e))
  {
    hide WorldOk, CallOk, Resume, Accept, WorkflowTraced, CallTraced;
    var t := Next(env, s, e);
    match e {
      case Start(id, request, now) =>
        StartKeepsStore(env, s.world, request, now);
        StartIsTraced(env, events, s.world, id, request, now);
      case Step(c, input) =>
        StoreIsTraced(env, events, s, c, input);
        ContinuationIsTraced(env, events, s.world, s.calls[c], input);
      case Crash(_) =>
    }
    forall id | id in t.world.store.workflows ensures WorkflowTraced(events + [e], t.world.store.workflows[id]) {
      WorkflowTracedLater(events, e, t.world.store.workflows[id]);
    }
    forall c | c in t.calls ensures CallTraced(events + [e], t.calls[c]) {
      if CallTraced(events, t.calls[c]) {
        CallTracedLater(events, e, t.calls[c]);
      }
    }
  }

  /** In every run each stored workflow was requested by its owner, planned on request of its owner or an
      administrator, and decided, in the recorded words, by a principal holding a reviewing role. */
  lemma {:induction false} EverythingWasAskedFor(env: Services, states: seq<State>, events: seq<Event>, i: nat)
    requires RunsAllNodes(env) && IsRun(env, states, events) && i < |states|
    ensures Traced(events[..i], states[i])
    ensures forall id :: id in states[i].world.store.workflows ==>
              WorkflowTraced(events[..i], states[i].world.store.workflows[id])
  {
    hide StateOk, Possible, Next, WorkflowTraced, CallTraced;
    if i > 0 {
      EverythingWasAskedFor(env, states, events, i - 1);
      EveryRunIsOk(env, states, events, i - 1);
      assert IsStep(env, states[i - 1], events[i - 1], states[i - 1 + 1]);
      StepIsTraced(env, events[..i - 1], states[i - 1], events[i - 1]);
      assert events[..i] == events[..i - 1] + [events[i - 1]];
    }
  }
}
