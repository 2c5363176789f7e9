/** What is on record of a workflow's data and decisions is what the services answered about it, stage by stage. */
module Oversight {
  import opened Prelude
  import opened Domain
  import opened Adapters
  import opened Protocol
  import opened Invariants
  import opened Guarantees
  import opened Runs
  import opened Provenance
  import Governance
  import Planning
  import Requests

  // ----- The contexts of the three stages -----

  /** The context of an accepted request at intake, whose text is in normal form. */
  function IntakeContext(env: Services, r: Request): Governance.ProcessingContext
    requires r.CreateWorkflow?
  {
    Governance.ProcessingContext(
      r.principal.subject, Governance.WorkflowIntake, "local-api", r.jurisdiction,
      env.classify(Requests.Normalize(r.request), r.declared), r.overlayIds)
  }

  /** The context of the n-th stage: intake, then planning and execution on the local provider. */
  function StageContext(intake: Governance.ProcessingContext, stage: nat): Governance.ProcessingContext {
    if stage == 0 then intake
    else
      intake.(operation := if stage == 1 then Governance.AgentPlanning else Governance.ToolExecution,
              provider := "deterministic-local")
  }

  /** Each decision on record is the policy's answer for its stage of this intake, and allowed the stage; the context
      kept is that of the last stage. */
  ghost predicate DecidedByPolicy(env: Services, w: Workflow, intake: Governance.ProcessingContext) {
    && 1 <= |w.governanceDecisions| <= 3
    && (forall i :: 0 <= i < |w.governanceDecisions| ==>
          w.governanceDecisions[i] == env.policy(StageContext(intake, i)) && w.governanceDecisions[i].executionAllowed)
    && w.processingContext == StageContext(intake, |w.governanceDecisions| - 1)
  }

  /** The event is the request this workflow was created for. */
  predicate Requested(e: Event, w: Workflow) {
    IsCreation(e, w.ownerId, w.request, w.requestedLocale)
  }

  ghost predicate TakenIn(env: Services, e: Event, w: Workflow) {
    Requested(e, w) && DecidedByPolicy(env, w, IntakeContext(env, e.request))
  }

  /** The workflow was taken in by some event, decided upon by the policy and planned by the runtime. */
  ghost predicate Overseen(env: Services, events: seq<Event>, w: Workflow) {
    && (exists n :: 0 <= n < |events| && TakenIn(env, events[n], w))
    && (w.planningResult.Some? ==> env.plan(InputOf(w)) == Ok(w.planningResult.value))
  }

  /** The draft is what its event asked for, with the policy's answer. */
  predicate DraftedFrom(env: Services, e: Event, d: Draft) {
    && IsCreation(e, d.ownerId, d.request, d.requestedLocale)
    && d.context == IntakeContext(env, e.request) && d.decision == env.policy(d.context)
  }

  ghost predicate CallOverseen(env: Services, events: seq<Event>, call: Call) {
    match call
    case Creating(d, _) => exists n :: 0 <= n < |events| && DraftedFrom(env, events[n], d)
    case Proposing(snapshot, result, decision) => PlannedFor(env, snapshot, result, decision)
    case Applying(snapshot, result, decision, _) => PlannedFor(env, snapshot, result, decision)
    case Storing(snapshot, Plan(result, decision, _, _), _, _) => PlannedFor(env, snapshot, result, decision)
    case Storing(snapshot, Begin(decision, context, _), _, _) => decision == env.policy(context)
    case _ => true
  }

  predicate PlannedFor(env: Services, w: Workflow, result: Planning.PlanningResult, decision: Governance.PolicyDecision) {
    && env.plan(InputOf(w)) == Ok(result)
    && decision == env.policy(w.processingContext.(operation := Governance.AgentPlanning, provider := "deterministic-local"))
  }

  // ----- One event -----

  lemma OverseenLater(env: Services, events: seq<Event>, e: Event, w: Workflow)
    requires Overseen(env, events, w)
    ensures Overseen(env, events + [e], w)
  {
    assert forall n :: 0 <= n < |events| ==> (events + [e])[n] == events[n];
  }

  lemma CallOverseenLater(env: Services, events: seq<Event>, e: Event, call: Call)
    requires CallOverseen(env, events, call)
    ensures CallOverseen(env, events + [e], call)
  {
    assert forall n :: 0 <= n < |events| ==> (events + [e])[n] == events[n];
  }

  lemma StartIsOverseen(env: Services, events: seq<Event>, w: World, c: nat, r: Request, now: Time)
    requires Bound(w)
    ensures var progress := Accept(env, w, r, now).1;
            progress.Continue? ==> CallOverseen(env, events + [Start(c, r, now)], progress.call)
  {
    hide Pending;
    var all := events + [Start(c, r, now)];
    assert all[|events|] == Start(c, r, now);
    if r.CreateWorkflow? {
      var progress := Accept(env, w, r, now).1;
      assert progress.Continue? ==> DraftedFrom(env, all[|events|], progress.call.draft);
    }
  }

  lemma StepIsOverseen(env: Services, events: seq<Event>, w: World, call: Call, input: Input)
    requires Bound(w) && CallOverseen(env, events, call)
    ensures var progress := Resume(env, w, call, input).1;
            progress.Continue? ==> CallOverseen(env, events, progress.call)
  {
    hide Pending, IsCreation, DraftedFrom;
  }

  /** A created workflow is overseen from the start. */
  lemma CreatedIsOverseen(env: Services, events: seq<Event>, call: Call, id: string)
    requires call.Creating? && CallOverseen(env, events, call) && call.draft.decision.executionAllowed
    ensures var d := call.draft;
            Overseen(env, events, Receive(id, d.ownerId, d.request, d.requestedLocale, d.context, d.decision, d.createdAt))
  {
    hide IsCreation;
    var d := call.draft;
    var n :| 0 <= n < |events| && DraftedFrom(env, events[n], d);
    var w := Receive(id, d.ownerId, d.request, d.requestedLocale, d.context, d.decision, d.createdAt);
    assert TakenIn(env, events[n], w);
  }

  /** Every lifecycle action leaves the workflow overseen. */
  lemma AppliedIsOverseen(env: Services, events: seq<Event>, call: Call)
    requires call.Storing? && Sound(call.snapshot) && Enabled(call.snapshot, call.action)
    requires call.next == Apply(call.snapshot, call.action)
    requires Overseen(env, events, call.snapshot) && CallOverseen(env, events, call)
    ensures Overseen(env, events, call.next)
  {
    hide IsCreation, FollowsPath, HasParts, CreateApprovalDecision, CreateToolProposal, Visiting;
    hide DecidedByPolicy;
    var n :| 0 <= n < |events| && TakenIn(env, events[n], call.snapshot);
    RequestedIsCreation(events[n], call.snapshot);
    ActionIsDecidedByPolicy(env, events, call, IntakeContext(env, events[n].request));
    assert TakenIn(env, events[n], call.next);
  }

  lemma ActionIsDecidedByPolicy(env: Services, events: seq<Event>, call: Call, intake: Governance.ProcessingContext)
    requires call.Storing? && Sound(call.snapshot) && Enabled(call.snapshot, call.action)
    requires call.next == Apply(call.snapshot, call.action)
    requires DecidedByPolicy(env, call.snapshot, intake) && CallOverseen(env, events, call)
    ensures DecidedByPolicy(env, call.next, intake)
  {
    hide FollowsPath, HasParts, CreateApprovalDecision, CreateToolProposal, Visiting;
    var before, after := call.snapshot, call.next;
    if call.action.Plan? || call.action.Begin? {
      var n := |before.governanceDecisions|;
      assert after.governanceDecisions == before.governanceDecisions + [after.governanceDecisions[n]];
    } else {
      assert after.governanceDecisions == before.governanceDecisions;
    }
  }

  ghost predicate AllOverseen(env: Services, events: seq<Event>, s: State) {
    && (forall id :: id in s.world.store.workflows ==> Overseen(env, events, s.world.store.workflows[id]))
    && (forall c :: c in s.calls ==> CallOverseen(env, events, s.calls[c]))
  }

  lemma StoreStaysOverseen(env: Services, events: seq<Event>, s: State, c: nat, input: Input)
    requires StateOk(s) && AllOverseen(env, events, s) && Bound(s.world) && Possible(s, Step(c, input))
    ensures var v := Resume(env, s.world, s.calls[c], input).0;
            forall id :: id in v.store.workflows ==> Overseen(env, events, v.store.workflows[id])
  {
    hide WorldOk, Overseen, Enabled, Apply, Sound, Evolves, HoldsWhatItNeeds, Pending;
    var call := s.calls[c];
    assert CallOk(s.world, call) && CallOverseen(env, events, call);
    if call.Storing? {
      StoringGuarantees(s.world, call);
      if s.world.store.workflows[call.snapshot.workflowId] == call.snapshot {
        AppliedIsOverseen(env, events, call);
      }
    } else if call.Creating? {
      CreatedIsOverseen(env, events, call, input.freshId);
    }
  }

  lemma EventKeepsOversight(env: Services, events: seq<Event>, s: State, e: Event)
    requires StateOk(s) && AllOverseen(env, events, s) && Bound(s.world) && Possible(s, e)
    ensures AllOverseen(env, events + [e], Next(env, s, e))
  {
    hide WorldOk, CallOk, Resume, Accept, Overseen, CallOverseen;
    var t := Next(env, s, e);
    match e {
      case Start(c, r, now) =>
        StartKeepsStore(env, s.world, r, now);
        StartIsOverseen(env, events, s.world, c, r, now);
      case Step(c, input) =>
        StoreStaysOverseen(env, events, s, c, input);
        StepIsOverseen(env, events, s.world, s.calls[c], input);
      case Crash(_) =>
    }
    forall id | id in t.world.store.workflows ensures Overseen(env, events + [e], t.world.store.workflows[id]) {
      OverseenLater(env, events, e, t.world.store.workflows[id]);
    }
    forall c | c in t.calls ensures CallOverseen(env, events + [e], t.calls[c]) {
      if CallOverseen(env, events, t.calls[c]) {
        CallOverseenLater(env, events, e, t.calls[c]);
      }
    }
  }

  /** In any run, of every stored workflow: its decisions are the policy's answers for the stages of an intake that was
      asked for, with the profile the classifier gave to the text and what was declared; and its plan is the runtime's
      answer for it. */
  lemma {:induction false} EverythingIsOverseen(env: Services, states: seq<State>, events: seq<Event>, i: nat)
    requires RunsAllNodes(env) && IsRun(env, states, events) && i < |states|
    ensures AllOverseen(env, events[..i], states[i])
  {
    hide StateOk, Possible, Next, Overseen, CallOverseen;
    if i > 0 {
      EverythingIsOverseen(env, states, events, i - 1);
      EveryRunIsOk(env, states, events, i - 1);
      assert IsStep(env, states[i - 1], events[i - 1], states[i - 1 + 1]);
      EventKeepsOversight(env, events[..i - 1], states[i - 1], events[i - 1]);
      assert events[..i] == events[..i - 1] + [events[i - 1]];
    }
  }

  // ----- Declared and detected data -----

  /** The services classify as the classifier does and decide as the enforced baseline does. */
  ghost predicate Governs(env: Services, matches: Governance.Detector) {
    && (forall text, declared :: Governance.IsProfile(matches, text, declared, env.classify(text, declared)))
    && (forall context :: env.policy(context) == Governance.Baseline(Governance.Enforce, context))
  }

  /** The category was declared, or its rule matches the text. */
  predicate Holds(matches: Governance.Detector, text: string, declared: set<Governance.DataCategory>,
                  category: Governance.DataCategory)
  {
    category in declared || (category != Governance.GeneralContent && matches(category, text))
  }

  /** Apart from general content, the profile the services make of a text holds exactly what was declared or detected. */
  lemma IntakeProfile(env: Services, matches: Governance.Detector, text: string, declared: set<Governance.DataCategory>)
    requires Governs(env, matches)
    ensures var profile := env.classify(text, declared);
            && (forall c :: Holds(matches, text, declared, c) ==> c in profile.categories)
            && (forall c :: c in profile.categories && c != Governance.GeneralContent ==> Holds(matches, text, declared, c))
  {
    assert Governance.IsProfile(matches, text, declared, env.classify(text, declared));
    Governance.EveryOtherCategoryHasARule(matches, text);
  }

  /** The event a stored workflow was created for. */
  lemma StoredWasTakenIn(env: Services, states: seq<State>, events: seq<Event>, i: nat, id: string) returns (n: nat)
    requires RunsAllNodes(env) && IsRun(env, states, events) && i < |states|
    requires id in states[i].world.store.workflows
    ensures n < i < |states| == |events| + 1 && events[n].Start? && events[n].request.CreateWorkflow?
    ensures var w := states[i].world.store.workflows[id];
            && Requested(events[n], w) && Requests.Normalize(events[n].request.request) == w.request
            && DecidedByPolicy(env, w, IntakeContext(env, events[n].request))
  {
    assert |states| == |events| + 1;
    hide IsRun, Requested, DecidedByPolicy;
    EverythingIsOverseen(env, states, events, i);
    var w := states[i].world.store.workflows[id];
    assert Overseen(env, events[..i], w);
    n :| 0 <= n < i && TakenIn(env, events[..i][n], w);
    assert events[..i][n] == events[n];
    RequestedIsCreation(events[n], w);
  }

  /** In any run under the enforced baseline: the profile kept with a workflow holds whatever its creator declared or a
      rule detects in its text, and neither credentials nor card data are among it. */
  lemma StoredDataWasDeclared(
    env: Services, matches: Governance.Detector, states: seq<State>, events: seq<Event>, i: nat, id: string)
    returns (n: nat)
    requires RunsAllNodes(env) && Governs(env, matches) && IsRun(env, states, events) && i < |states|
    requires id in states[i].world.store.workflows
    ensures n < i && Requested(events[n], states[i].world.store.workflows[id])
    ensures var w, declared := states[i].world.store.workflows[id], events[n].request.declared;
            && (forall c :: Holds(matches, w.request, declared, c) ==> c in w.processingContext.dataProfile.categories)
            && !Holds(matches, w.request, declared, Governance.Credentials)
            && !Holds(matches, w.request, declared, Governance.PaymentCardData)
  {
    hide IsRun, Requested, Governs, Governance.Baseline, Holds;
    n := StoredWasTakenIn(env, states, events, i, id);
    var w := states[i].world.store.workflows[id];
    IntakeProfile(env, matches, w.request, events[n].request.declared);
    var intake := IntakeContext(env, events[n].request);
    assert StageContext(intake, 0) == intake && env.policy(intake).executionAllowed;
    AdmittedHoldsNothingProhibited(env, matches, intake);
  }

  lemma RequestedIsCreation(e: Event, w: Workflow)
    requires Requested(e, w)
    ensures e.Start? && e.request.CreateWorkflow? && Requests.Normalize(e.request.request) == w.request
  {
  }

  lemma AdmittedHoldsNothingProhibited(env: Services, matches: Governance.Detector, intake: Governance.ProcessingContext)
    requires Governs(env, matches) && env.policy(intake).executionAllowed
    requires intake.operation == Governance.WorkflowIntake && intake.provider == "local-api"
    ensures Governance.Credentials !in intake.dataProfile.categories
    ensures Governance.PaymentCardData !in intake.dataProfile.categories
  {
    Governance.EnforcedIntakeAdmits(intake);
  }

  /** In any run under the enforced baseline, every decision on record of a workflow carries the full set of controls
      exactly when its creator declared, or a rule detects in its text, something other than general content and
      contact information. */
  lemma StoredDecisionsCarryControls(
    env: Services, matches: Governance.Detector, states: seq<State>, events: seq<Event>, i: nat, id: string, d: nat)
    returns (n: nat)
    requires RunsAllNodes(env) && Governs(env, matches) && IsRun(env, states, events) && i < |states|
    requires id in states[i].world.store.workflows && d < |states[i].world.store.workflows[id].governanceDecisions|
    ensures n < i && Requested(events[n], states[i].world.store.workflows[id])
    ensures var w, declared := states[i].world.store.workflows[id], events[n].request.declared;
            Governance.LocalProcessingOnly in w.governanceDecisions[d].obligations
            <==> exists c :: c !in {Governance.GeneralContent, Governance.ContactInformation}
                             && Holds(matches, w.request, declared, c)
  {
    hide IsRun, Requested, Governs, Governance.Baseline, Holds;
    n := StoredWasTakenIn(env, states, events, i, id);
    var w := states[i].world.store.workflows[id];
    var context := StageContext(IntakeContext(env, events[n].request), d);
    PolicyIsBaseline(env, matches, context);
    ControlsFollowData(env, matches, w.request, events[n].request.declared, context);
  }

  lemma PolicyIsBaseline(env: Services, matches: Governance.Detector, context: Governance.ProcessingContext)
    requires Governs(env, matches)
    ensures env.policy(context) == Governance.Baseline(Governance.Enforce, context)
  {
  }

  lemma ControlsFollowData(env: Services, matches: Governance.Detector, text: string,
                           declared: set<Governance.DataCategory>, context: Governance.ProcessingContext)
    requires Governs(env, matches) && context.dataProfile == env.classify(text, declared)
    ensures Governance.LocalProcessingOnly in Governance.Baseline(Governance.Enforce, context).obligations
            <==> exists c :: c !in {Governance.GeneralContent, Governance.ContactInformation}
                             && Holds(matches, text, declared, c)
  {
    hide Governance.Baseline;
    assert Governance.IsProfile(matches, text, declared, context.dataProfile);
    Governance.SensitiveDataIsControlled(matches, text, declared, Governance.Enforce, context);
    Governance.EveryOtherCategoryHasARule(matches, text);
    assert forall c :: c != Governance.GeneralContent ==>
                         (Holds(matches, text, declared, c) <==> c in declared + Governance.DetectedIn(matches, text));
  }
}
