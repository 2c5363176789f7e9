/** The one crash that recovery does not reach: a worker that recorded an expiry and never acknowledged the task. */
module Stranding {
  import opened Prelude
  import opened Domain
  import opened Adapters
  import opened Protocol
  import opened Invariants
  import opened Guarantees
  import opened Runs
  import opened Agreement
  import opened Sequential
  import opened Draining
  import opened Paths
  import opened Interruption

  // ----- Who acknowledges the task of an expired workflow -----

  /** The call recorded the expiry of this workflow and is about to acknowledge its task. */
  predicate Announces(call: Call, id: string) {
    call.Acknowledging? && call.outcome == Err(ApprovalExpired) && call.task.workflowId == id
  }

  /** The event stops such a call. */
  predicate AbandonsExpiry(s: State, e: Event, id: string) {
    e.Crash? && e.id in s.calls && Announces(s.calls[e.id], id)
  }

  /** What an acknowledging call reports fits the workflow it names. */
  predicate ReportFits(w: World, call: Call) {
    call.Acknowledging? ==>
      && (HasExpired(w, call.task.workflowId) <==> call.outcome == Err(ApprovalExpired))
      && (call.outcome == Err(ApprovalExpired) ==>
            w.store.workflows[call.task.workflowId].approvalDecision.Some?
            && TaskId(call.task.workflowId) !in w.queue.completed)
  }

  /** Reports fit, and at most one call reports the expiry of a workflow. */
  ghost predicate ReportsFit(s: State) {
    && (forall c :: c in s.calls ==> ReportFits(s.world, s.calls[c]))
    && (forall b, c :: b in s.calls && c in s.calls && s.calls[c].Acknowledging?
                       && Announces(s.calls[b], s.calls[c].task.workflowId)
                       ==> b == c)
  }

  lemma StateIsWorldOk(s: State)
    requires StateOk(s)
    ensures WorldOk(s.world)
  {
  }

  lemma OnlyAcknowledgementCompletes(env: Services, s: State, e: Event)
    requires StateOk(s) && Bound(s.world) && Possible(s, e)
    ensures Next(env, s, e).world.queue.completed
            <= s.world.queue.completed + if e.Step? && s.calls[e.id].Acknowledging?
                                         then {TaskId(s.calls[e.id].task.workflowId)} else {}
  {
    hide WorldOk, Pending, Snapshot, Apply, Enabled;
    if e.Step? {
      assert CallOk(s.world, s.calls[e.id]);
    }
  }

  lemma NobodyStartsAcknowledging(env: Services, w: World, request: Request, now: Time)
    requires Bound(w)
    ensures var progress := Accept(env, w, request, now).1; progress.Continue? ==> !progress.call.Acknowledging?
  {
  }

  lemma NobodyAcknowledgesExpired(env: Services, w: World, call: Call, input: Input, id: string)
    requires WorldOk(w) && CallOk(w, call) && id in w.store.workflows && w.store.workflows[id].status == Expired
    ensures var progress := Resume(env, w, call, input).1;
            progress.Continue? && progress.call.Acknowledging? ==> progress.call.task.workflowId != id
  {
    hide WorldOk, Sound, Evolves, Apply;
    WorldIsBound(w);
    if call.Storing? {
      UpdateAppliesToCurrent(env, w, call, input);
    }
  }

  /** A call comes to acknowledge either because it just recorded an expiry, or because its workflow is completed. */
  lemma AcknowledgementArises(env: Services, w: World, call: Call, input: Input)
    requires WorldOk(w) && CallOk(w, call)
    ensures var (v, progress) := Resume(env, w, call, input);
            progress.Continue? && progress.call.Acknowledging? ==>
              var id := progress.call.task.workflowId;
              && id in w.store.workflows && id in v.store.workflows && v.queue == w.queue
              && if progress.call.outcome == Err(ApprovalExpired)
                 then && w.store.workflows[id].status == Approved && v.store.workflows[id].status == Expired
                      && v.store.workflows[id].approvalDecision.Some?
                 else v.store.workflows[id].status == Completed
  {
    hide WorldOk, Sound, Evolves;
    WorldIsBound(w);
    if call.Storing? {
      UpdateAppliesToCurrent(env, w, call, input);
    }
  }

  lemma UndecidedByCompletion(w: World, id: string)
    requires WorldOk(w) && TaskId(id) in w.queue.completed
    ensures id in w.store.workflows && w.store.workflows[id].status in {Completed, Expired}
  {
    hide Sound, KeysOk, ExecutionsOk;
    assert Finished(w.store, TaskId(id).workflowId);
  }

  lemma TerminalStays(v: World, w: World, id: string)
    requires Rely(v, w) && id in v.store.workflows
    ensures id in w.store.workflows
    ensures v.store.workflows[id].status in {Completed, Expired} ==> w.store.workflows[id] == v.store.workflows[id]
  {
    assert Evolves(v.store.workflows[id], w.store.workflows[id]);
  }

  lemma AcknowledgerIsOk(w: World, call: Call)
    requires CallOk(w, call) && call.Acknowledging?
    ensures call.task.taskId == TaskId(call.task.workflowId)
    ensures call.task.workflowId in w.store.workflows
    ensures w.store.workflows[call.task.workflowId].status in {Completed, Expired}
  {
  }

  /** The call at `c` did not come to acknowledge by this event. */
  predicate WasAcknowledging(s: State, t: State, c: nat) {
    c in s.calls && c in t.calls && t.calls[c] == s.calls[c]
  }

  /** What an acknowledging call may say of itself after an event. */
  lemma AcknowledgersAre(env: Services, s: State, e: Event, c: nat)
    requires RunsAllNodes(env) && StateOk(s) && Bound(s.world) && Possible(s, e)
    requires c in Next(env, s, e).calls && Next(env, s, e).calls[c].Acknowledging?
    ensures var t := Next(env, s, e);
            var id := t.calls[c].task.workflowId;
            && id in s.world.store.workflows && id in t.world.store.workflows
            && if WasAcknowledging(s, t, c)
               then s.world.store.workflows[id].status in {Completed, Expired}
                    && t.world.store.workflows[id] == s.world.store.workflows[id]
               else && e.Step? && e.id == c && t.world.queue == s.world.queue
                    && if t.calls[c].outcome == Err(ApprovalExpired)
                       then && s.world.store.workflows[id].status == Approved
                            && t.world.store.workflows[id].status == Expired
                            && t.world.store.workflows[id].approvalDecision.Some?
                       else t.world.store.workflows[id].status == Completed
  {
    hide WorldOk, CallOk, Resume, Accept, Rely, RunsAllNodes;
    StepKeepsOk(env, s, e);
    var t := Next(env, s, e);
    if WasAcknowledging(s, t, c) {
      AcknowledgerIsOk(s.world, s.calls[c]);
      TerminalStays(s.world, t.world, t.calls[c].task.workflowId);
    } else {
      match e
      case Start(_, request, now) => NobodyStartsAcknowledging(env, s.world, request, now);
      case Step(_, input) => AcknowledgementArises(env, s.world, s.calls[e.id], input);
      case Crash(_) =>
    }
  }

  lemma ReportKeepsFitting(env: Services, s: State, e: Event, c: nat)
    requires RunsAllNodes(env) && StateOk(s) && ReportsFit(s) && Bound(s.world) && Possible(s, e)
    requires c in Next(env, s, e).calls
    ensures ReportFits(Next(env, s, e).world, Next(env, s, e).calls[c])
  {
    hide WorldOk, CallOk, Next, RunsAllNodes;
    var t := Next(env, s, e);
    if t.calls[c].Acknowledging? {
      var id := t.calls[c].task.workflowId;
      AcknowledgersAre(env, s, e, c);
      OnlyAcknowledgementCompletes(env, s, e);
      if TaskId(id) in s.world.queue.completed {
        UndecidedByCompletion(s.world, id);
      }
      if WasAcknowledging(s, t, c) {
        assert ReportFits(s.world, s.calls[c]);
        if e.Step? && s.calls[e.id].Acknowledging? {
          AcknowledgedIsGone(env, s, e);
        }
      }
    }
  }

  /** An acknowledging call that takes its step is gone. */
  lemma AcknowledgedIsGone(env: Services, s: State, e: Event)
    requires Bound(s.world) && Possible(s, e) && e.Step? && s.calls[e.id].Acknowledging?
    ensures e.id !in Next(env, s, e).calls
  {
  }

  lemma OnlyOneAnnounces(env: Services, s: State, e: Event, b: nat, c: nat)
    requires RunsAllNodes(env) && StateOk(s) && ReportsFit(s) && Bound(s.world) && Possible(s, e)
    requires var calls := Next(env, s, e).calls;
             b in calls && c in calls && calls[c].Acknowledging? && Announces(calls[b], calls[c].task.workflowId)
    ensures b == c
  {
    hide WorldOk, CallOk, Next, RunsAllNodes;
    var t := Next(env, s, e);
    AcknowledgersAre(env, s, e, b);
    AcknowledgersAre(env, s, e, c);
    if WasAcknowledging(s, t, b) {
      assert ReportFits(s.world, s.calls[b]);
    }
  }

  /** Every event keeps the reports fitting. */
  lemma StepKeepsReports(env: Services, s: State, e: Event)
    requires RunsAllNodes(env) && StateOk(s) && ReportsFit(s) && Bound(s.world) && Possible(s, e)
    ensures ReportsFit(Next(env, s, e))
  {
    hide StateOk, Next, ReportFits, RunsAllNodes, Announces;
    var t := Next(env, s, e);
    forall c | c in t.calls ensures ReportFits(t.world, t.calls[c]) {
      ReportKeepsFitting(env, s, e, c);
    }
    forall b, c | b in t.calls && c in t.calls && t.calls[c].Acknowledging?
                  && Announces(t.calls[b], t.calls[c].task.workflowId)
      ensures b == c
    {
      OnlyOneAnnounces(env, s, e, b, c);
    }
  }

  /** Every state of every run has fitting reports. */
  lemma {:induction false} ReportsAlwaysFit(env: Services, states: seq<State>, events: seq<Event>, i: nat)
    requires RunsAllNodes(env) && IsRun(env, states, events) && i < |states|
    ensures StateOk(states[i]) && ReportsFit(states[i])
  {
    hide StateOk, ReportsFit, Possible, Next;
    EveryRunIsOk(env, states, events, i);
    if i == 0 {
      NothingToReport(states[0]);
    } else {
      ReportsAlwaysFit(env, states, events, i - 1);
      assert IsStep(env, states[i - 1], events[i - 1], states[i - 1 + 1]);
      StepKeepsReports(env, states[i - 1], events[i - 1]);
    }
  }

  lemma NothingToReport(s: State)
    requires Initial(s)
    ensures ReportsFit(s)
  {
  }

  // ----- The exact condition for stranding -----

  /** An approved workflow expired, its task is not acknowledged, and nobody is about to do so. */
  ghost predicate Forsaken(s: State, id: string) {
    && HasExpired(s.world, id) && s.world.store.workflows[id].approvalDecision.Some?
    && TaskId(id) !in s.world.queue.completed
    && forall c :: c in s.calls ==> !(s.calls[c].Acknowledging? && s.calls[c].task.workflowId == id)
  }

  /** Abandoning the announcement of an expiry forsakes the workflow... */
  lemma AbandoningForsakes(env: Services, s: State, e: Event, id: string)
    requires ReportsFit(s) && Bound(s.world) && Possible(s, e) && AbandonsExpiry(s, e, id)
    ensures Forsaken(Next(env, s, e), id)
  {
    assert ReportFits(s.world, s.calls[e.id]);
  }

  /** ...no step of any call, nor a crash, ever mends that... */
  lemma ForsakenLasts(env: Services, s: State, e: Event, id: string)
    requires RunsAllNodes(env) && StateOk(s) && Forsaken(s, id) && Bound(s.world) && Possible(s, e)
    ensures Forsaken(Next(env, s, e), id)
  {
    hide WorldOk, CallOk, Resume, Accept, RunsAllNodes, Rely;
    StepKeepsOk(env, s, e);
    TerminalStays(s.world, Next(env, s, e).world, id);
    OnlyAcknowledgementCompletes(env, s, e);
    match e
    case Step(c, input) => NobodyAcknowledgesExpired(env, s.world, s.calls[c], input, id);
    case Start(_, request, now) => NobodyStartsAcknowledging(env, s.world, request, now);
    case Crash(_) =>
  }

  lemma StepForsakesNothing(env: Services, s: State, c: nat, input: Input, id: string)
    requires RunsAllNodes(env) && StateOk(s) && Bound(s.world) && Possible(s, Step(c, input))
    requires Forsaken(Next(env, s, Step(c, input)), id)
    ensures HasExpired(s.world, id) && s.world.store.workflows[id].approvalDecision.Some?
    ensures !(s.calls[c].Acknowledging? && s.calls[c].task.workflowId == id)
  {
    hide WorldOk, CallOk, Resume, RunsAllNodes, Rely;
    StepKeepsOk(env, s, Step(c, input));
    var t := Next(env, s, Step(c, input));
    assert Owed(t.world, id) == Some(ToAcknowledge);
    ResumePassesOn(env, s.world, s.calls[c], input, id);
    var progress := Resume(env, s.world, s.calls[c], input).1;
    assert progress.Continue? ==> t.calls[c] == progress.call;
    TerminalStays(s.world, t.world, id);
  }

  /** ...and it comes about in no other way. */
  lemma OnlyAbandoningForsakes(env: Services, s: State, e: Event, id: string)
    requires RunsAllNodes(env) && StateOk(s) && ReportsFit(s) && Bound(s.world) && Possible(s, e)
    requires Forsaken(Next(env, s, e), id) && !AbandonsExpiry(s, e, id)
    ensures Forsaken(s, id)
  {
    hide WorldOk, CallOk, Resume, Accept, RunsAllNodes, Rely;
    var t := Next(env, s, e);
    StepKeepsOk(env, s, e);
    CompletedOnlyGrows(s.world, t.world);
    match e {
      case Start(_, request, now) => StartKeepsStore(env, s.world, request, now);
      case Crash(_) =>
      case Step(c, input) => StepForsakesNothing(env, s, c, input, id);
    }
    forall c | c in s.calls ensures !(s.calls[c].Acknowledging? && s.calls[c].task.workflowId == id) {
      assert ReportFits(s.world, s.calls[c]);
      assert c == e.id || (c in t.calls && t.calls[c] == s.calls[c]);
    }
  }

  lemma CompletedOnlyGrows(v: World, w: World)
    requires Rely(v, w)
    ensures v.queue.completed <= w.queue.completed
  {
  }

  ghost predicate AbandonedBefore(states: seq<State>, events: seq<Event>, i: nat, id: string)
    requires i < |states| == |events| + 1
  {
    exists n :: 0 <= n < i && AbandonsExpiry(states[n], events[n], id)
  }

  /** In any run, with any crashes: the task of an expired, once approved workflow is unacknowledged with nobody about
      to acknowledge it exactly when a worker crashed between recording that expiry and acknowledging the task. */
  lemma {:induction false} ForsakenExactlyWhenAbandoned(
    env: Services, states: seq<State>, events: seq<Event>, i: nat, id: string)
    requires RunsAllNodes(env) && IsRun(env, states, events) && i < |states|
    ensures Forsaken(states[i], id) <==> AbandonedBefore(states, events, i, id)
  {
    hide Forsaken, StateOk, ReportsFit, Possible, Next, AbandonsExpiry;
    if i == 0 {
      NothingForsaken(states[0], id);
    } else {
      ForsakenExactlyWhenAbandoned(env, states, events, i - 1, id);
      ReportsAlwaysFit(env, states, events, i - 1);
      assert IsStep(env, states[i - 1], events[i - 1], states[i - 1 + 1]);
      if AbandonsExpiry(states[i - 1], events[i - 1], id) {
        AbandoningForsakes(env, states[i - 1], events[i - 1], id);
      } else if AbandonedBefore(states, events, i, id) {
        ForsakenLasts(env, states[i - 1], events[i - 1], id);
      } else if Forsaken(states[i], id) {
        OnlyAbandoningForsakes(env, states[i - 1], events[i - 1], id);
      }
    }
  }

  lemma NothingForsaken(s: State, id: string)
    requires Initial(s)
    ensures !Forsaken(s, id)
  {
  }

  // ----- Draining after any run -----

  /** At a quiet moment, a waiting task belongs to an expired workflow exactly when it was forsaken. */
  lemma ExpiredWaitsWhenForsaken(s: State, id: string)
    requires StateOk(s) && s.calls == map[]
    ensures TaskId(id) in s.world.queue.Waiting() && ExpiredWaits(s.world, TaskId(id))
            <==> TaskId(id) in s.world.queue.tasks && Forsaken(s, id)
  {
    hide Sound, KeysOk, ExecutionsOk, Evolves, Pending;
    PendingAreOrdered(s.world.queue.order, s.world.queue.completed);
    if TaskId(id) in s.world.queue.tasks {
      assert TaskBound(s.world.store, s.world.queue.tasks[TaskId(id)]);
    }
  }

  /** No crash so far hit a worker between recording an expiry and acknowledging a task that is in the queue now. */
  ghost predicate NothingAbandoned(states: seq<State>, events: seq<Event>, i: nat)
    requires i < |states| == |events| + 1
  {
    forall id :: TaskId(id) in states[i].world.queue.tasks ==> !AbandonedBefore(states, events, i, id)
  }

  /** Whatever was interrupted before: at any quiet moment of any run, n waiting tasks take n calls, in first-enqueue
      order, one delivery each, each ending its workflow by completion or by expiry, if and only if no crash hit a
      worker between recording an expiry and acknowledging a task that is in the queue. */
  lemma QuietQueueDrains(
    env: Services, states: seq<State>, events: seq<Event>, i: nat, principal: Principal, times: seq<Time>)
    requires RunsAllNodes(env) && UsesBaseline(env) && IsRun(env, states, events) && i < |states|
    requires states[i].calls == map[] && MayProcess(principal) && Bound(states[i].world)
    requires |times| == |states[i].world.queue.Waiting()|
    ensures var w := states[i].world;
            var (v, outcomes) := Drain(env, w, principal, times);
            && (NothingAbandoned(states, events, i) <==> v.queue.Waiting() == [])
            && (NothingAbandoned(states, events, i) ==> Drained(w, v, w.queue.Waiting(), outcomes))
  {
    assert |states| == |events| + 1;
    hide StateOk, WorldOk, Pending, IsRun, NothingAbandoned, NothingExpiredWaits, UsesBaseline, Drain, Drained;
    EveryRunIsOk(env, states, events, i);
    StateIsWorldOk(states[i]);
    ExpiredWaitsWhenAbandoned(env, states, events, i);
    DrainsExactlyWhenNothingExpiredWaits(env, states[i].world, principal, times);
  }

  lemma ExpiredWaitsWhenAbandoned(env: Services, states: seq<State>, events: seq<Event>, i: nat)
    requires RunsAllNodes(env) && IsRun(env, states, events) && i < |states| && states[i].calls == map[]
    ensures NothingExpiredWaits(states[i].world) <==> NothingAbandoned(states, events, i)
  {
    assert |states| == |events| + 1;
    hide StateOk, WorldOk, Pending, IsRun, Forsaken, AbandonedBefore, ExpiredWaits;
    var w := states[i].world;
    EveryRunIsOk(env, states, events, i);
    forall id ensures TaskId(id) in w.queue.Waiting() && ExpiredWaits(w, TaskId(id))
                      <==> TaskId(id) in w.queue.tasks && AbandonedBefore(states, events, i, id)
    {
      ExpiredWaitsWhenForsaken(states[i], id);
      ForsakenExactlyWhenAbandoned(env, states, events, i, id);
    }
    forall t | t in w.queue.Waiting() ensures t == TaskId(t.workflowId) {}
  }

  // ----- The stranded task -----

  /** A forsaken task heads the queue. */
  ghost predicate Stranded(s: State, id: string) {
    Forsaken(s, id) && s.world.queue.Waiting() != [] && s.world.queue.Waiting()[0] == TaskId(id)
  }

  /** A worker that finds the approval expired and crashes between recording that and acknowledging the task strands
      it: five events from any quiet state whose first waiting task is approved. */
  lemma CrashAfterExpiryStrands(env: Services, s: State, c: nat, principal: Principal, id: string, now: Time)
    returns (path: seq<State>, events: seq<Event>)
    requires RunsAllNodes(env) && StateOk(s) && s.calls == map[] && MayProcess(principal)
    requires ReadyHead(s.world, id) && now > s.world.store.workflows[id].approvalDecision.value.expiresAt
    ensures IsPath(env, path, events) && |events| == 5 && path[0] == s
    ensures events[0] == Start(c, ProcessNextTask(principal), now)
    ensures AbandonsExpiry(path[4], events[4], id)
    ensures path[5].calls == map[] && Stranded(path[5], id)
  {
    hide WorldOk, Pending, IsStep, TaskBound;
    path, events := WorkerIsInterrupted(env, s, c, principal, id, now);
    StateIsWorldOk(s);
    ClaimTakesTheHead(s.world);
    PathKeepsOk(env, path, events, 5);
    StateIsWorldOk(path[5]);
    HeadIsPending(s.world);
    StoredIsSound(s.world, id);
  }

  lemma HeadIsPending(w: World)
    requires w.queue.Waiting() != []
    ensures w.queue.Waiting()[0] !in w.queue.completed
  {
    PendingAreOrdered(w.queue.order, w.queue.completed);
    assert w.queue.Waiting()[0] in w.queue.Waiting();
  }

  lemma {:induction false} HeadStays(
    order: seq<TaskId>, completed: set<TaskId>, order': seq<TaskId>, completed': set<TaskId>)
    requires Pending(order, completed) != [] && order <= order' && completed <= completed'
    requires Pending(order, completed)[0] !in completed'
    ensures Pending(order', completed') != [] && Pending(order', completed')[0] == Pending(order, completed)[0]
  {
    assert order'[0] == order[0];
    if order[0] in completed {
      assert order[1..] <= order'[1..];
      HeadStays(order[1..], completed, order'[1..], completed');
    }
  }

  /** No step of any call, nor a crash, ever frees a stranded task. */
  lemma StrandingLasts(env: Services, s: State, e: Event, id: string)
    requires RunsAllNodes(env) && StateOk(s) && Stranded(s, id) && Bound(s.world) && Possible(s, e)
    ensures Stranded(Next(env, s, e), id)
  {
    hide WorldOk, CallOk, Pending, Next, Forsaken;
    StepKeepsOk(env, s, e);
    ForsakenLasts(env, s, e, id);
    var t := Next(env, s, e);
    ForsakenIsPending(s, t, id);
    HeadStays(s.world.queue.order, s.world.queue.completed, t.world.queue.order, t.world.queue.completed);
  }

  lemma ForsakenIsPending(s: State, t: State, id: string)
    requires Rely(s.world, t.world) && Forsaken(t, id)
    ensures s.world.queue.order <= t.world.queue.order && s.world.queue.completed <= t.world.queue.completed
    ensures TaskId(id) !in t.world.queue.completed
  {
  }

  /** A stranded task stays at the head of the queue for the rest of the run. */
  lemma {:induction false} StrandedForever(
    env: Services, states: seq<State>, events: seq<Event>, i: nat, j: nat, id: string)
    requires RunsAllNodes(env) && IsRun(env, states, events) && i <= j < |states|
    requires Stranded(states[i], id)
    ensures StateOk(states[j]) && Stranded(states[j], id)
    decreases j
  {
    hide Stranded, StateOk, Possible, Next;
    EveryRunIsOk(env, states, events, j);
    if i < j {
      StrandedForever(env, states, events, i, j - 1, id);
      assert IsStep(env, states[j - 1], events[j - 1], states[j - 1 + 1]);
      StrandingLasts(env, states[j - 1], events[j - 1], id);
    }
  }

  /** A worker on the task of an expired workflow: it has claimed it, or has read the expired workflow since. */
  predicate Doomed(call: Call, id: string) {
    || (call.Claimed? && call.task.workflowId == id)
    || (call.Judging? && call.snapshot.workflowId == id && call.snapshot.status == Expired)
  }

  /** Such a worker changes nothing and fails, now or after one more step. */
  lemma DoomedFails(env: Services, w: World, call: Call, input: Input, id: string)
    requires Bound(w) && HasExpired(w, id) && w.store.workflows[id].workflowId == id && Doomed(call, id)
    ensures var (v, progress) := Resume(env, w, call, input);
            && v == w
            && match progress
               case Return(outcome) => outcome == Err(InvalidWorkflowState)
               case Continue(next) => call.Claimed? && next.Judging? && Doomed(next, id)
  {
  }

  /** From the moment a task is stranded, in any interleaving for the rest of the run: every processing call is handed
      that task, and every worker that holds it changes nothing and fails. */
  lemma StrandedQueueServesNobody(
    env: Services, states: seq<State>, events: seq<Event>, i: nat, j: nat, id: string, principal: Principal)
    requires RunsAllNodes(env) && IsRun(env, states, events) && i <= j < |states|
    requires Stranded(states[i], id) && MayProcess(principal)
    ensures Bound(states[j].world)
    ensures forall now ::
              var progress := Accept(env, states[j].world, ProcessNextTask(principal), now).1;
              progress.Continue? && progress.call.Claimed? && Doomed(progress.call, id)
    ensures forall c, input :: c in states[j].calls && Doomed(states[j].calls[c], id) ==>
              var (v, progress) := Resume(env, states[j].world, states[j].calls[c], input);
              && v == states[j].world
              && (progress == Return(Err(InvalidWorkflowState)) || (progress.Continue? && Doomed(progress.call, id)))
  {
    hide WorldOk, CallOk, Pending, IsRun, Resume, TaskBound, Rely;
    StrandedForever(env, states, events, i, j, id);
    var s := states[j];
    StateIsWorldOk(s);
    WorldIsBound(s.world);
    ClaimTakesTheHead(s.world);
    StoredIsSound(s.world, id);
    forall c, input | c in s.calls && Doomed(s.calls[c], id)
      ensures var (v, progress) := Resume(env, s.world, s.calls[c], input);
              && v == s.world
              && (progress == Return(Err(InvalidWorkflowState)) || (progress.Continue? && Doomed(progress.call, id)))
    {
      DoomedFails(env, s.world, s.calls[c], input, id);
    }
  }

  /** Alone, any number of processing calls fail and leave store and queue order as they were. */
  lemma StrandedQueueStays(env: Services, s: State, id: string, principal: Principal, times: seq<Time>)
    requires UsesBaseline(env) && StateOk(s) && Stranded(s, id) && MayProcess(principal)
    ensures Bound(s.world)
    ensures var (v, outcomes) := Drain(env, s.world, principal, times);
            && v.queue.Waiting() == s.world.queue.Waiting() && v.store == s.world.store
            && forall i :: 0 <= i < |times| ==> outcomes[i] == Err(InvalidWorkflowState)
  {
    hide WorldOk, Pending, UsesBaseline, Drain;
    StateIsWorldOk(s);
    WorldIsBound(s.world);
    ExpiredHeadBlocks(env, s.world, principal, times);
  }
}
