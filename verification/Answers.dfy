/** What callers are told, in any interleaving, is true. */
module Answers {
  import opened Prelude
  import opened Domain
  import opened Adapters
  import opened Protocol
  import opened Invariants
  import opened Runs

  /** The workflow a call is about, once it has one. */
  function SubjectOf(call: Call): Option<string> {
    match call
    case Creating(_, _) => None
    case Enqueueing(_, stored) => Some(stored.workflowId)
    case Claimed(task) => Some(task.workflowId)
    case Acknowledging(task, _) => Some(task.workflowId)
    case _ => Some(call.snapshot.workflowId)
  }

  function RequestedOf(request: Request): Option<string> {
    match request
    case PlanWorkflow(_, id) => Some(id)
    case DecideApproval(_, id, _, _, _) => Some(id)
    case ExecuteTask(task) => Some(task.workflowId)
    case _ => None
  }

  /** A present or earlier value of a stored workflow. */
  ghost predicate WasStored(w: World, v: Workflow) {
    v.workflowId in w.store.workflows && Evolves(v, w.store.workflows[v.workflowId])
  }

  /** A reported workflow is one that is or was stored, and the one that was asked for; a reported expiry is a fact;
      and when nothing is said to be waiting, nothing is. */
  ghost predicate TrueAnswer(w: World, subject: Option<string>, outcome: Outcome) {
    match outcome
    case Ok(v) => WasStored(w, v) && (subject.Some? ==> v.workflowId == subject.value)
    case Err(ApprovalExpired) => subject.Some? && HasExpired(w, subject.value)
    case Err(NoPendingTask) => w.queue.Waiting() == []
    case Err(_) => true
  }

  /** What a call is going to report is true already; a worker reports a completed workflow as it is stored. */
  ghost predicate Truthful(w: World, call: Call) {
    match call
    case Enqueueing(_, stored) => WasStored(w, stored)
    case Acknowledging(task, Ok(v)) =>
      && v.workflowId == task.workflowId && v.status == Completed
      && v.workflowId in w.store.workflows && w.store.workflows[v.workflowId] == v
    case Acknowledging(task, Err(e)) => e == ApprovalExpired && HasExpired(w, task.workflowId)
    case _ => true
  }

  lemma WasStoredLater(v: World, w: World, u: Workflow)
    requires WasStored(v, u) && Rely(v, w)
    ensures WasStored(w, u)
  {
    EvolutionComposes(u, v.store.workflows[u.workflowId], w.store.workflows[u.workflowId]);
  }

  lemma TruthLasts(v: World, w: World, call: Call)
    requires Truthful(v, call) && Rely(v, w)
    ensures Truthful(w, call)
  {
    hide WasStored, QueueRely, ExecutionsRely;
    match call
    case Enqueueing(_, stored) => WasStoredLater(v, w, stored);
    case Acknowledging(task, _) =>
      assert Evolves(v.store.workflows[task.workflowId], w.store.workflows[task.workflowId]);
    case _ =>
  }

  lemma StartAnswers(env: Services, w: World, request: Request, now: Time)
    requires WorldOk(w)
    ensures Bound(w)
    ensures var (v, progress) := Accept(env, w, request, now);
            match progress
            case Return(outcome) => TrueAnswer(v, RequestedOf(request), outcome)
            case Continue(call) =>
              Truthful(v, call) && (RequestedOf(request).Some? ==> SubjectOf(call) == RequestedOf(request))
  {
    hide Sound, KeysOk, QueueOk, ExecutionsOk, Pending;
    if RequestedOf(request).Some? && RequestedOf(request).value in w.store.workflows {
      EvolvesReflexive(w.store.workflows[RequestedOf(request).value]);
    }
  }

  /** What a call goes on to report after an accepted update. */
  lemma AcceptedUpdateSpeaks(w: World, call: Call, s: Store)
    requires CallOk(w, call) && call.Storing? && call.next.workflowId == call.snapshot.workflowId
    requires s == Replaced(w.store, call.next)
    ensures var progress := AfterStoring(call.action, call.next, call.held);
            match progress
            case Return(outcome) => TrueAnswer(w.(store := s), SubjectOf(call), outcome)
            case Continue(next) => Truthful(w.(store := s), next) && SubjectOf(next) == SubjectOf(call)
  {
    hide Sound, Evolves, Snapshot, CreateApprovalDecision, CreateToolProposal, Visiting;
    assert WasStored(w.(store := s), call.next) by {
      EvolvesReflexive(call.next);
    }
  }

  /** A version-checked update reports what it stored. */
  lemma StoringAnswers(env: Services, w: World, call: Call, input: Input)
    requires WorldOk(w) && CallOk(w, call) && call.Storing?
    ensures var (v, progress) := Resume(env, w, call, input);
            match progress
            case Return(outcome) => TrueAnswer(v, SubjectOf(call), outcome)
            case Continue(next) => Truthful(v, next) && SubjectOf(next) == SubjectOf(call)
  {
    hide WorldOk, Rely, Truthful, AfterStoring, Sound, Evolves, Enabled, Apply, HoldsWhatItNeeds, WasStored, HasExpired;
    WorldIsBound(w);
    StoringGuarantees(w, call);
    UpdateHitsSnapshot(w, call.snapshot, call.next);
    if w.store.workflows[call.snapshot.workflowId] == call.snapshot {
      AcceptedUpdateSpeaks(w, call, Replaced(w.store, call.next));
    }
  }

  lemma CreatingAnswers(env: Services, w: World, call: Call, input: Input)
    requires WorldOk(w) && call.Creating?
    ensures var (v, progress) := Resume(env, w, call, input);
            progress.Return? && TrueAnswer(v, None, progress.outcome)
  {
    hide Sound, QueueOk, ExecutionsOk;
    var scoped := (call.draft.ownerId, call.key);
    if scoped in w.store.idempotency {
      EvolvesReflexive(w.store.workflows[w.store.idempotency[scoped]]);
    }
  }

  lemma StepAnswers(env: Services, w: World, call: Call, input: Input)
    requires WorldOk(w) && CallOk(w, call) && Truthful(w, call)
    ensures Bound(w)
    ensures var (v, progress) := Resume(env, w, call, input);
            match progress
            case Return(outcome) => TrueAnswer(v, SubjectOf(call), outcome)
            case Continue(next) => Truthful(v, next) && SubjectOf(next) == SubjectOf(call)
  {
    WorldIsBound(w);
    match call
    case Storing(_, _, _, _) => StoringAnswers(env, w, call, input);
    case Creating(_, _) => CreatingAnswers(env, w, call, input);
    case _ => OtherStepAnswers(env, w, call, input);
  }

  lemma OtherStepAnswers(env: Services, w: World, call: Call, input: Input)
    requires WorldOk(w) && CallOk(w, call) && Truthful(w, call) && !call.Storing? && !call.Creating?
    ensures var (v, progress) := Resume(env, w, call, input);
            match progress
            case Return(outcome) => TrueAnswer(v, SubjectOf(call), outcome)
            case Continue(next) => Truthful(v, next) && SubjectOf(next) == SubjectOf(call)
  {
    hide KeysOk, QueueOk, ExecutionsOk, Evolves, Sound, Enabled, Apply, Pending, HoldsWhatItNeeds, AppliedPlan,
         RecordApproval, BeginExecution;
    if call.Acknowledging? && call.outcome.Ok? {
      EvolvesReflexive(call.outcome.value);
    }
  }

  ghost predicate AllTruthful(s: State) {
    forall c :: c in s.calls ==> Truthful(s.world, s.calls[c])
  }

  lemma EventKeepsTruth(env: Services, s: State, e: Event)
    requires RunsAllNodes(env) && StateOk(s) && AllTruthful(s) && Bound(s.world) && Possible(s, e)
    ensures AllTruthful(Next(env, s, e))
  {
    hide WorldOk, CallOk, Rely, Truthful, Accept, Resume, RunsAllNodes, TrueAnswer;
    StepKeepsOk(env, s, e);
    var t := Next(env, s, e);
    match e {
      case Start(_, request, now) => StartAnswers(env, s.world, request, now);
      case Step(c, input) => StepAnswers(env, s.world, s.calls[c], input);
      case Crash(_) =>
    }
    forall c | c in t.calls ensures Truthful(t.world, t.calls[c]) {
      if c in s.calls && t.calls[c] == s.calls[c] {
        TruthLasts(s.world, t.world, s.calls[c]);
      }
    }
  }

  lemma {:induction false} CallsStayTruthful(env: Services, states: seq<State>, events: seq<Event>, i: nat)
    requires RunsAllNodes(env) && IsRun(env, states, events) && i < |states|
    ensures StateOk(states[i]) && AllTruthful(states[i])
  {
    hide AllTruthful, StateOk, Possible, Next;
    EveryRunIsOk(env, states, events, i);
    if i == 0 {
      assert AllTruthful(states[0]) by {
        NobodySpeaks(states[0]);
      }
    } else {
      CallsStayTruthful(env, states, events, i - 1);
      assert IsStep(env, states[i - 1], events[i - 1], states[i - 1 + 1]);
      EventKeepsTruth(env, states[i - 1], events[i - 1]);
    }
  }

  lemma NobodySpeaks(s: State)
    requires Initial(s)
    ensures AllTruthful(s)
  {
  }

  /** What an event of a run answers, if it ends a call. */
  function AnswerOf(env: Services, s: State, e: Event): Option<(Option<string>, Outcome)>
    requires Bound(s.world) && Possible(s, e)
  {
    match e
    case Start(_, request, now) =>
      var progress := Accept(env, s.world, request, now).1;
      if progress.Return? then Some((RequestedOf(request), progress.outcome)) else None
    case Step(c, input) =>
      var progress := Resume(env, s.world, s.calls[c], input).1;
      if progress.Return? then Some((SubjectOf(s.calls[c]), progress.outcome)) else None
    case Crash(_) => None
  }

  /** In any run, with any crashes: whatever a call returns is true of the shared state it leaves. A worker that
      reports success reports the completed workflow as it is stored. */
  lemma AnswersAreTrue(env: Services, states: seq<State>, events: seq<Event>, n: nat)
    requires RunsAllNodes(env) && IsRun(env, states, events) && n < |events|
    ensures IsStep(env, states[n], events[n], states[n + 1])
    ensures var answer := AnswerOf(env, states[n], events[n]);
            answer.Some? ==> TrueAnswer(states[n + 1].world, answer.value.0, answer.value.1)
    ensures events[n].Step? && states[n].calls[events[n].id].Acknowledging? ==>
              var v := AnswerOf(env, states[n], events[n]).value.1;
              v.Ok? ==> v.value.status == Completed
                        && states[n + 1].world.store.workflows[v.value.workflowId] == v.value
  {
    hide WorldOk, CallOk, Accept, TrueAnswer, RunsAllNodes, Initial;
    CallsStayTruthful(env, states, events, n);
    assert IsStep(env, states[n], events[n], states[n + 1]);
    match events[n]
    case Start(_, request, now) => StartAnswers(env, states[n].world, request, now);
    case Step(c, input) => StepAnswers(env, states[n].world, states[n].calls[c], input);
    case Crash(_) =>
  }
}
