/** Runs that reach the documented states: none of the theorems about runs is about nothing. */
module Reachability {
  import opened Prelude
  import opened Domain
  import opened Adapters
  import opened Protocol
  import opened Invariants
  import opened Runs
  import opened Sequential
  import opened Draining
  import opened Paths
  import opened Interruption
  import opened Stranding
  import opened Punctuality
  import opened Delivery
  import Governance
  import Planning

  /** Services that accept a request and find a plan for it, with people entitled to take it through. */
  datatype Cast = Cast(
    env: Services, create: Request, planner: Principal, decide: Request, operator: Principal, id: string)
  {
    ghost predicate Fits() {
      && RunsAllNodes(env) && UsesBaseline(env)
      && create.CreateWorkflow? && Accept(env, EMPTY_WORLD, create, 0).1.Continue?
      && env.plan(StoredRequest(create, id)).Ok?
      && (planner.subject == create.principal.subject || Administrator in planner.roles)
      && decide.DecideApproval? && decide.workflowId == id
      && decide.principal.roles * {Reviewer, Administrator} != {}
      && decide.principal.subject != create.principal.subject
      && MayProcess(operator)
    }
  }

  /** Enforced baseline policy, text without findings, and the default planning runtime. */
  function DefaultServices(hash: string -> string, tokens: string -> set<string>): Services {
    Services(
      context => Governance.Baseline(Governance.Enforce, context),
      (text, declared) => Governance.DataProfile(
        Governance.Internal, {Governance.GeneralContent}, {Governance.DefaultGeneral}),
      input => Planning.Plan(Planning.DefaultRuntime(text => [], hash, tokens), input))
  }

  /** There is such a cast: with these services, whatever is requested, by whomever. */
  lemma DefaultServicesFit(hash: string -> string, tokens: string -> set<string>, text: string, id: string)
    returns (cast: Cast)
    ensures cast.env == DefaultServices(hash, tokens) && cast.create.CreateWorkflow? && cast.create.request == text
    ensures cast.id == id && cast.Fits()
  {
    hide Planning.Plan, Planning.DefaultRuntime, Accept, Governance.Baseline;
    var env := DefaultServices(hash, tokens);
    var owner := Principal("owner", {Requester});
    var reviewer := Principal("reviewer", {Reviewer});
    var operator := Principal("operator", {Operator});
    assert reviewer.subject[0] != owner.subject[0];
    assert Reviewer in reviewer.roles * {Reviewer, Administrator};
    assert Operator in operator.roles * {Operator, Administrator};
    cast := Cast(
      env, CreateWorkflow(owner, text, "en", "key", {}, "US", [COMMON_OVERLAY]), owner,
      DecideApproval(reviewer, id, Approve, "", "key"), operator, id);
    assert AppliesBaseline(env, Governance.Enforce);
    GraphRunsAllNodes(env, Planning.DefaultRuntime(text => [], hash, tokens));
    DefaultPlanSucceeds(hash, tokens, StoredRequest(cast.create, id));
    IntakeAccepts(hash, tokens, cast.create);
  }

  lemma IntakeAccepts(hash: string -> string, tokens: string -> set<string>, create: Request)
    requires create.CreateWorkflow? && Requester in create.principal.roles && create.overlayIds == [COMMON_OVERLAY]
    ensures Accept(DefaultServices(hash, tokens), EMPTY_WORLD, create, 0).1.Continue?
  {
    hide Planning.Plan, Planning.DefaultRuntime;
    assert Requester in create.principal.roles * {Requester, Administrator};
    assert (set id | id in create.overlayIds) == {COMMON_OVERLAY};
  }

  lemma DefaultPlanSucceeds(hash: string -> string, tokens: string -> set<string>, input: Planning.PlanningInput)
    ensures Planning.Plan(Planning.DefaultRuntime(text => [], hash, tokens), input).Ok?
  {
    hide Planning.Plan;
    Planning.DefaultRuntimeFailsOnlyOnFlaggedText(text => [], hash, tokens, input);
  }

  /** A run with nothing in flight at its end, which it reaches in a world. */
  ghost predicate EndsIn(env: Services, states: seq<State>, events: seq<Event>, w: World) {
    IsRun(env, states, events) && states[|events|].calls == map[] && states[|events|].world == w
  }

  lemma EndIsOk(env: Services, states: seq<State>, events: seq<Event>, w: World)
    requires RunsAllNodes(env) && EndsIn(env, states, events, w)
    ensures StateOk(states[|events|]) && WorldOk(w)
  {
    hide WorldOk, CallOk;
    EveryRunIsOk(env, states, events, |events|);
  }

  lemma RunServes(
    env: Services, states: seq<State>, events: seq<Event>, w: World, request: Request, input: Input, later: Time)
    returns (states': seq<State>, events': seq<Event>)
    requires Bound(w) && EndsIn(env, states, events, w) && !request.ExecuteTask?
    requires request.CreateWorkflow? ==> input.freshId !in w.store.workflows
    ensures EndsIn(env, states', events', Serve(env, w, request, input, later).0)
  {
    hide Serve, IsStep;
    var path, more := ServingIsAPath(env, states[|events|], 0, request, input, later);
    RunContinues(env, states, events, path, more);
    states', events' := states + path[1..], events + more;
  }

  /** The workflow is in this state, decided upon or not. */
  predicate Is(w: World, id: string, status: Status, decided: bool) {
    id in w.store.workflows && w.store.workflows[id].status == status
    && w.store.workflows[id].approvalDecision.Some? == decided
  }

  lemma ReceivedIsReached(cast: Cast) returns (states: seq<State>, events: seq<Event>, w: World)
    requires cast.Fits()
    ensures EndsIn(cast.env, states, events, w) && WorldOk(w) && Is(w, cast.id, Received, false)
    ensures w.queue.Waiting() == [] && InputOf(w.store.workflows[cast.id]) == StoredRequest(cast.create, cast.id)
  {
    hide Sound, Serve, Accept, UsesBaseline, RunsAllNodes;
    EmptyWorldIsOk();
    states, events := [State(EMPTY_WORLD, map[], 0)], [];
    CreationStage(cast.env, EMPTY_WORLD, cast.create, cast.id, 0);
    w := Serve(cast.env, EMPTY_WORLD, cast.create, Input(0, cast.id), 0).0;
    states, events := RunServes(cast.env, states, events, EMPTY_WORLD, cast.create, Input(0, cast.id), 0);
    PartsByStatus(w, cast.id);
  }

  lemma PartsByStatus(w: World, id: string)
    requires WorldOk(w) && id in w.store.workflows
    ensures var v := w.store.workflows[id];
            && (v.status in {Received, AwaitingApproval} ==> v.approvalDecision.None?)
            && (v.status in {Approved, Rejected, Executing, Completed} ==> v.approvalDecision.Some?)
            && (v.status == AwaitingApproval ==> v.planningResult.Some? && v.actionProposal.Some?)
  {
    hide KeysOk, QueueOk, ExecutionsOk, FollowsPath, Governed;
    assert Sound(w.store.workflows[id]);
  }

  lemma AwaitingApprovalIsReached(cast: Cast) returns (states: seq<State>, events: seq<Event>, w: World)
    requires cast.Fits()
    ensures EndsIn(cast.env, states, events, w) && WorldOk(w) && Is(w, cast.id, AwaitingApproval, false)
    ensures w.queue.Waiting() == [] && InputOf(w.store.workflows[cast.id]) == StoredRequest(cast.create, cast.id)
    ensures w.store.workflows[cast.id].actionProposal.Some? && w.store.workflows[cast.id].planningResult.Some?
    ensures w.store.workflows[cast.id].actionProposal.value.expiresAt == PROPOSAL_LIFETIME
  {
    hide WorldOk, Serve, Accept, UsesBaseline, RunsAllNodes, OthersSame;
    var before;
    states, events, before := ReceivedIsReached(cast);
    WorldIsBound(before);
    PlanningStage(cast.env, before, cast.planner, cast.id, 0, 0);
    var request := PlanWorkflow(cast.planner, cast.id);
    w := Serve(cast.env, before, request, Input(0, ""), 0).0;
    states, events := RunServes(cast.env, states, events, before, request, Input(0, ""), 0);
    PartsByStatus(w, cast.id);
  }

  /** Deciding at a given time: approved or rejected in time, expired when late. */
  lemma DecisionIsReached(cast: Cast, verdict: Verdict, now: Time)
    returns (states: seq<State>, events: seq<Event>, w: World)
    requires cast.Fits()
    ensures EndsIn(cast.env, states, events, w) && WorldOk(w)
    ensures now > PROPOSAL_LIFETIME ==> Is(w, cast.id, Expired, false)
    ensures now <= PROPOSAL_LIFETIME ==> Is(w, cast.id, StatusOf(verdict), true)
    ensures now == 0 && verdict == Approve ==>
              && ReadyHead(w, cast.id)
              && w.store.workflows[cast.id].approvalDecision.value.expiresAt == APPROVAL_LIFETIME
  {
    hide WorldOk, Serve, Accept, RunsAllNodes, OthersSame, Pending, UsesBaseline;
    var before;
    states, events, before := AwaitingApprovalIsReached(cast);
    WorldIsBound(before);
    var request := cast.decide.(verdict := verdict);
    DecidingAlone(cast.env, before, request, Input(now, ""), now);
    ServingIsOk(cast.env, before, request, Input(now, ""), now);
    w := Serve(cast.env, before, request, Input(now, ""), now).0;
    states, events := RunServes(cast.env, states, events, before, request, Input(now, ""), now);
  }

  /** A worker on the approved workflow that is interrupted after its verdict: executing in time, expired when late. */
  lemma VerdictIsReached(cast: Cast, now: Time) returns (states: seq<State>, events: seq<Event>, w: World)
    requires cast.Fits()
    ensures EndsIn(cast.env, states, events, w) && WorldOk(w)
    ensures Is(w, cast.id, if now > APPROVAL_LIFETIME then Expired else Executing, true)
  {
    hide WorldOk, Accept, RunsAllNodes, Pending, UsesBaseline, IsStep;
    var before;
    states, events, before := DecisionIsReached(cast, Approve, 0);
    EndIsOk(cast.env, states, events, before);
    StoredIsSound(before, cast.id);
    BaselinePermitsExecution(cast.env, before.store.workflows[cast.id].processingContext);
    var path, more := WorkerIsInterrupted(cast.env, states[|events|], 0, cast.operator, cast.id, now);
    RunContinues(cast.env, states, events, path, more);
    states, events := states + path[1..], events + more;
    w := path[5].world;
    EndIsOk(cast.env, states, events, w);
  }

  lemma CompletedIsReached(cast: Cast) returns (states: seq<State>, events: seq<Event>, w: World)
    requires cast.Fits()
    ensures EndsIn(cast.env, states, events, w) && WorldOk(w) && Is(w, cast.id, Completed, true)
  {
    hide WorldOk, Accept, Serve, RunsAllNodes, Pending, UsesBaseline;
    var before;
    states, events, before := DecisionIsReached(cast, Approve, 0);
    WorldIsBound(before);
    var request, input := ProcessNextTask(cast.operator), Input(0, "");
    ProcessingTheHead(cast.env, before, cast.operator, 0);
    InTimeMeansCompleted(cast.env, before, cast.operator, cast.id, 0);
    w := Serve(cast.env, before, request, input, 0).0;
    states, events := RunServes(cast.env, states, events, before, request, input, 0);
    PartsByStatus(w, cast.id);
  }

  /** Every status the code stores, with both ways to expire, is the status of a workflow at the end of some run. */
  lemma StoredStatusesAreReached(cast: Cast, status: Status, decided: bool)
    returns (states: seq<State>, events: seq<Event>, w: World)
    requires cast.Fits()
    requires status in {Received, AwaitingApproval, Approved, Rejected, Expired, Executing, Completed}
    requires status in {Received, AwaitingApproval} ==> !decided
    requires status in {Approved, Rejected, Executing, Completed} ==> decided
    ensures EndsIn(cast.env, states, events, w) && WorldOk(w) && Is(w, cast.id, status, decided)
  {
    hide WorldOk, EndsIn, Cast.Fits;
    match status
    case Received => states, events, w := ReceivedIsReached(cast);
    case AwaitingApproval => states, events, w := AwaitingApprovalIsReached(cast);
    case Approved => states, events, w := DecisionIsReached(cast, Approve, 0);
    case Rejected => states, events, w := DecisionIsReached(cast, Reject, 0);
    case Executing => states, events, w := VerdictIsReached(cast, 0);
    case Completed => states, events, w := CompletedIsReached(cast);
    case Expired =>
      if decided {
        states, events, w := VerdictIsReached(cast, APPROVAL_LIFETIME + 1);
      } else {
        states, events, w := DecisionIsReached(cast, Approve, PROPOSAL_LIFETIME + 1);
      }
  }

  /** A run from the empty system to a stranded queue: its last event is the crash. */
  lemma StrandingIsReached(cast: Cast, now: Time) returns (states: seq<State>, events: seq<Event>)
    requires cast.Fits() && now > APPROVAL_LIFETIME
    ensures IsRun(cast.env, states, events) && events != []
    ensures AbandonsExpiry(states[|events| - 1], events[|events| - 1], cast.id)
    ensures states[|events|].calls == map[] && Stranded(states[|events|], cast.id)
  {
    hide WorldOk, CallOk, IsStep, Cast.Fits, Stranded, AbandonsExpiry;
    var before;
    states, events, before := DecisionIsReached(cast, Approve, 0);
    CastRuns(cast);
    EndIsOk(cast.env, states, events, before);
    var path, more := CrashAfterExpiryStrands(cast.env, states[|events|], 0, cast.operator, cast.id, now);
    RunContinues(cast.env, states, events, path, more);
    var n := |events|;
    assert (states + path[1..])[n + 4] == path[4] && (events + more)[n + 4] == more[4];
    states, events := states + path[1..], events + more;
  }

  /** A run from the empty system to a completed workflow whose record is later than its approval's expiry. */
  lemma LateRecordIsReached(cast: Cast, late: Time) returns (states: seq<State>, events: seq<Event>)
    requires cast.Fits() && late > APPROVAL_LIFETIME
    ensures IsRun(cast.env, states, events)
    ensures Is(states[|events|].world, cast.id, Completed, true)
    ensures var v := states[|events|].world.store.workflows[cast.id];
            && v.executionResult.Some? && v.executionResult.value.executedAt == late
            && late > v.approvalDecision.value.expiresAt
  {
    hide WorldOk, CallOk, IsStep, Cast.Fits;
    var before;
    states, events, before := DecisionIsReached(cast, Approve, 0);
    CastRuns(cast);
    EndIsOk(cast.env, states, events, before);
    var path, more := RecordCanBeLate(cast.env, states[|events|], 0, cast.operator, cast.id, 0, late);
    RunContinues(cast.env, states, events, path, more);
    states, events := states + path[1..], events + more;
  }

  lemma CastRuns(cast: Cast)
    requires cast.Fits()
    ensures RunsAllNodes(cast.env) && UsesBaseline(cast.env) && MayProcess(cast.operator)
  {
  }

  /** The history of a stored workflow goes through this state. */
  ghost predicate Visits(w: World, id: string, status: Status) {
    id in w.store.workflows
    && exists n :: 0 <= n < |w.store.workflows[id].transitions|
                   && w.store.workflows[id].transitions[n].current == status
  }

  ghost predicate IsVisited(env: Services, status: Status) {
    exists states: seq<State>, events: seq<Event>, id: string ::
      IsRun(env, states, events) && Visits(states[|events|].world, id, status)
  }

  lemma HistoriesVisitTheirPath(w: World, id: string, status: Status)
    requires WorldOk(w) && id in w.store.workflows
    ensures Visits(w, id, status) <==> status in PathOf(w.store.workflows[id])
  {
    hide KeysOk, QueueOk, ExecutionsOk, HasParts, Governed, PathOf;
    var v := w.store.workflows[id];
    assert Sound(v) && Along(v.transitions, PathOf(v));
    if status in PathOf(v) {
      var n :| 0 <= n < |PathOf(v)| && PathOf(v)[n] == status;
      assert Enters(v.transitions[n], PathOf(v), n);
    }
    if Visits(w, id, status) {
      var n :| 0 <= n < |v.transitions| && v.transitions[n].current == status;
      assert Enters(v.transitions[n], PathOf(v), n);
    }
  }

  lemma PathsLeadNowhereElse(w: Workflow)
    ensures Failed !in PathOf(w) && Cancelled !in PathOf(w)
  {
  }

  lemma CompletionGoesThrough(w: Workflow, status: Status)
    requires w.status == Completed && status !in {Failed, Cancelled, Rejected, Expired}
    ensures status in PathOf(w)
  {
    assert PathOf(w) == PlannedPath() + [Approved, Executing, Evaluating, Completed];
    assert forall s :: s in Planning.NODES ==> s in PlannedPath();
  }

  /** Of the documented states the histories of runs go through all but `failed` and `cancelled`. */
  lemma VisitedExactlyWhen(cast: Cast, status: Status)
    requires cast.Fits()
    ensures IsVisited(cast.env, status) <==> status !in {Failed, Cancelled}
  {
    hide WorldOk, PathOf, Visits;
    if status in {Failed, Cancelled} {
      forall states: seq<State>, events: seq<Event>, id: string | IsRun(cast.env, states, events)
        ensures !Visits(states[|events|].world, id, status)
      {
        NeverVisited(cast.env, states, events, id, status);
      }
    } else {
      var decided := true;
      var target := if status in {Rejected, Expired} then status else Completed;
      var states, events, w := StoredStatusesAreReached(cast, target, decided);
      HistoriesVisitTheirPath(w, cast.id, status);
      if target == Completed {
        CompletionGoesThrough(w.store.workflows[cast.id], status);
      } else {
        EndsOnThePath(w.store.workflows[cast.id]);
      }
      assert Visits(states[|events|].world, cast.id, status);
    }
  }

  lemma EndsOnThePath(w: Workflow)
    requires w.status in {Rejected, Expired}
    ensures w.status in PathOf(w)
  {
    assert PathOf(w)[|PathOf(w)| - 1] == w.status;
  }

  lemma NeverVisited(env: Services, states: seq<State>, events: seq<Event>, id: string, status: Status)
    requires RunsAllNodes(env) && IsRun(env, states, events) && status in {Failed, Cancelled}
    ensures !Visits(states[|events|].world, id, status)
  {
    hide WorldOk, CallOk;
    EveryRunIsOk(env, states, events, |events|);
    var w := states[|events|].world;
    if id in w.store.workflows {
      HistoriesVisitTheirPath(w, id, status);
      PathsLeadNowhereElse(w.store.workflows[id]);
    }
  }
}
