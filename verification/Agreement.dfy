/** Unless a crash abandons a duty, store, queue and executor agree whenever nothing is in flight. */
module Agreement {
  import opened Prelude
  import opened Domain
  import opened Adapters
  import opened Protocol
  import opened Invariants
  import opened Guarantees
  import opened Runs

  datatype Duty = ToEnqueue | ToFinish | ToAcknowledge

  /** What the shared state still lacks for a workflow. */
  function Owed(w: World, id: string): Option<Duty>
    requires id in w.store.workflows
  {
    var v := w.store.workflows[id];
    if v.status == Approved && TaskId(id) !in w.queue.tasks then Some(ToEnqueue)
    else if v.status == Executing then Some(ToFinish)
    else if (v.status == Completed || (v.status == Expired && v.approvalDecision.Some?)) && TaskId(id) !in w.queue.completed
    then Some(ToAcknowledge)
    else None
  }

  /** The call is on its way to supply it. */
  predicate Pledges(call: Call, id: string, duty: Duty) {
    match duty
    case ToEnqueue => call.Enqueueing? && call.task.workflowId == id
    case ToFinish =>
      || (call.Running? && call.snapshot.workflowId == id)
      || (call.Storing? && call.action.Complete? && call.snapshot.workflowId == id)
    case ToAcknowledge => call.Acknowledging? && call.task.workflowId == id
  }

  ghost predicate Pledged(calls: map<nat, Call>, id: string, duty: Duty) {
    exists c :: c in calls && Pledges(calls[c], id, duty)
  }

  /** Whatever is owed, some call in flight has pledged. */
  ghost predicate Agreed(s: State) {
    forall id :: id in s.world.store.workflows && Owed(s.world, id).Some?
                 ==> Pledged(s.calls, id, Owed(s.world, id).value)
  }

  /** After a step, a duty is either an old one the moving call had not pledged, or one it now pledges. */
  ghost predicate PassesOn(w: World, call: Call, v: World, progress: Progress, id: string) {
    id in v.store.workflows && Owed(v, id).Some? ==>
      || (id in w.store.workflows && Owed(w, id) == Owed(v, id) && !Pledges(call, id, Owed(v, id).value))
      || (progress.Continue? && Pledges(progress.call, id, Owed(v, id).value))
  }

  /** An executing workflow has only one possible value from the moment it starts executing. */
  lemma ExecutingHasOneVersion(a: Workflow, b: Workflow)
    requires Sound(a) && Sound(b) && a.status == b.status == Executing && Evolves(a, b)
    ensures a == b
  {
    hide HasParts, PlannedPath;
  }

  /** What an accepted update leaves owed, the same call goes on to supply. */
  lemma AppliedActionPledges(w: World, call: Call)
    requires CallOk(w, call) && call.Storing? && call.next.workflowId == call.snapshot.workflowId
    ensures var id, v := call.next.workflowId, w.(store := Replaced(w.store, call.next));
            var progress := AfterStoring(call.action, call.next, call.held);
            Owed(v, id).Some? ==> progress.Continue? && Pledges(progress.call, id, Owed(v, id).value)
  {
    hide Sound, Evolves;
    if call.action.LetExpire? && call.held.None? {
      assert Sound(call.snapshot);
      AwaitingHasNoApproval(call.snapshot);
    }
  }

  lemma StoringPassesOn(env: Services, w: World, call: Call, input: Input, id: string)
    requires WorldOk(w) && CallOk(w, call) && call.Storing?
    ensures var (v, progress) := Resume(env, w, call, input); PassesOn(w, call, v, progress, id)
  {
    hide Sound, Evolves, KeysOk, QueueOk, ExecutionsOk, Enabled, Apply, HoldsWhatItNeeds, AfterStoring, Rely;
    StoringGuarantees(w, call);
    UpdateHitsSnapshot(w, call.snapshot, call.next);
    var current := w.store.workflows[call.snapshot.workflowId];
    if current == call.snapshot {
      AppliedActionPledges(w, call);
    } else {
      SupersededPledgesNothing(w, call);
    }
  }

  /** A call whose snapshot is no longer current has nothing to finish. */
  lemma SupersededPledgesNothing(w: World, call: Call)
    requires WorldOk(w) && CallOk(w, call) && call.Storing?
    requires w.store.workflows[call.snapshot.workflowId] != call.snapshot
    ensures call.action.Complete? ==> w.store.workflows[call.snapshot.workflowId].status != Executing
  {
    hide Sound, Evolves, KeysOk, QueueOk, ExecutionsOk, Enabled, Apply, HoldsWhatItNeeds;
    var current := w.store.workflows[call.snapshot.workflowId];
    if call.action.Complete? && current.status == Executing {
      CompletingMeansExecuting(call);
      ExecutingHasOneVersion(call.snapshot, current);
    }
  }

  lemma CompletingMeansExecuting(call: Call)
    requires call.Storing? && call.action.Complete? && Enabled(call.snapshot, call.action)
    ensures call.snapshot.status == Executing
  {
  }

  lemma AwaitingHasNoApproval(w: Workflow)
    requires Sound(w)
    ensures w.status == AwaitingApproval ==> w.approvalDecision.None?
  {
    hide FollowsPath;
  }

  lemma ResumePassesOn(env: Services, w: World, call: Call, input: Input, id: string)
    requires WorldOk(w) && CallOk(w, call)
    requires call.Creating? ==> input.freshId !in w.store.workflows
    ensures var (v, progress) := Resume(env, w, call, input); PassesOn(w, call, v, progress, id)
  {
    hide CallOk, WorldOk, PassesOn, Resume;
    WorldIsBound(w);
    match call
    case Storing(_, _, _, _) => StoringPassesOn(env, w, call, input, id);
    case Running(_, _, _) => RunningPassesOn(env, w, call, input, id);
    case Enqueueing(_, _) => QueueingPassesOn(env, w, call, input, id);
    case Acknowledging(_, _) => QueueingPassesOn(env, w, call, input, id);
    case _ => QuietlyPassesOn(env, w, call, input, id);
  }

  /** A worker that made the effect goes on to store the completion. */
  lemma RunningPassesOn(env: Services, w: World, call: Call, input: Input, id: string)
    requires WorldOk(w) && CallOk(w, call) && call.Running?
    ensures var (v, progress) := Resume(env, w, call, input); PassesOn(w, call, v, progress, id)
  {
    hide Sound, Evolves, KeysOk, QueueOk, ExecutionsOk, Rely;
    RunningStep(env, w, call, input);
  }

  lemma QueueingPassesOn(env: Services, w: World, call: Call, input: Input, id: string)
    requires Bound(w) && CallOk(w, call) && (call.Enqueueing? || call.Acknowledging?)
    ensures var (v, progress) := Resume(env, w, call, input); PassesOn(w, call, v, progress, id)
  {
    hide Sound, Evolves, Snapshot;
  }

  /** The other steps change no status and touch no task, so they owe and settle nothing. */
  lemma QuietlyPassesOn(env: Services, w: World, call: Call, input: Input, id: string)
    requires Bound(w) && (call.Creating? ==> input.freshId !in w.store.workflows)
    requires !call.Storing? && !call.Running? && !call.Enqueueing? && !call.Acknowledging?
    ensures var (v, progress) := Resume(env, w, call, input); PassesOn(w, call, v, progress, id)
  {
  }

  /** The event stops the only call that was about to supply something owed. */
  ghost predicate AbandonsDuty(s: State, e: Event) {
    e.Crash? && exists id :: AbandonsDutyTo(s, e.id, id)
  }

  ghost predicate AbandonsDutyTo(s: State, c: nat, id: string) {
    id in s.world.store.workflows && Owed(s.world, id).Some? && !Pledged(s.calls - {c}, id, Owed(s.world, id).value)
  }

  lemma StepHandsOn(env: Services, s: State, c: nat, input: Input)
    requires StateOk(s) && Agreed(s) && Bound(s.world) && Possible(s, Step(c, input))
    ensures Agreed(Next(env, s, Step(c, input)))
  {
    hide WorldOk, CallOk, Resume;
    var t := Next(env, s, Step(c, input));
    forall id | id in t.world.store.workflows && Owed(t.world, id).Some?
      ensures Pledged(t.calls, id, Owed(t.world, id).value)
    {
      var duty := Owed(t.world, id).value;
      ResumePassesOn(env, s.world, s.calls[c], input, id);
      var (v, progress) := Resume(env, s.world, s.calls[c], input);
      if progress.Continue? && Pledges(progress.call, id, duty) {
        assert t.calls[c] == progress.call;
      } else {
        var d :| d in s.calls && Pledges(s.calls[d], id, duty);
        assert d in t.calls && t.calls[d] == s.calls[d];
      }
    }
  }

  lemma StartHandsOn(env: Services, s: State, e: Event)
    requires Agreed(s) && Bound(s.world) && e.Start? && Possible(s, e)
    ensures Agreed(Next(env, s, e))
  {
    var t := Next(env, s, e);
    forall id | id in t.world.store.workflows && Owed(t.world, id).Some?
      ensures Pledged(t.calls, id, Owed(t.world, id).value)
    {
      assert t.world.store == s.world.store && Owed(t.world, id) == Owed(s.world, id);
      var c :| c in s.calls && Pledges(s.calls[c], id, Owed(s.world, id).value);
      assert c in t.calls && t.calls[c] == s.calls[c];
    }
  }

  /** An event breaks the agreement exactly when it is a crash of the only call about to supply something owed. */
  lemma StepKeepsAgreement(env: Services, s: State, e: Event)
    requires StateOk(s) && Agreed(s) && Bound(s.world) && Possible(s, e)
    ensures Agreed(Next(env, s, e)) <==> !AbandonsDuty(s, e)
  {
    hide StateOk, Bound, Agreed, Possible, Next;
    match e
    case Start(_, _, _) => StartHandsOn(env, s, e);
    case Step(c, input) => StepHandsOn(env, s, c, input);
    case Crash(c) => CrashHandsOn(env, s, c);
  }

  lemma CrashHandsOn(env: Services, s: State, c: nat)
    requires Bound(s.world) && Possible(s, Crash(c))
    ensures Agreed(Next(env, s, Crash(c))) <==> !AbandonsDuty(s, Crash(c))
  {
    hide Owed, Pledged, Bound;
    var t := Next(env, s, Crash(c));
    assert t.world == s.world && t.calls == s.calls - {c};
    if AbandonsDuty(s, Crash(c)) {
      var id :| AbandonsDutyTo(s, c, id);
      assert !Pledged(t.calls, id, Owed(t.world, id).value);
    } else {
      forall id | id in t.world.store.workflows && Owed(t.world, id).Some?
        ensures Pledged(t.calls, id, Owed(t.world, id).value)
      {
        assert !AbandonsDutyTo(s, c, id);
      }
    }
  }

  /** As long as no crash abandons a duty, whatever is owed is about to be supplied. */
  lemma {:induction false} CarefulRunsAgree(env: Services, states: seq<State>, events: seq<Event>, i: nat)
    requires RunsAllNodes(env) && IsRun(env, states, events) && i < |states|
    requires forall n :: 0 <= n < i ==> !AbandonsDuty(states[n], events[n])
    ensures Agreed(states[i])
  {
    hide Agreed, StateOk, Possible, Next, AbandonsDuty;
    if i == 0 {
      InitiallyAgreed(states[0]);
    } else {
      CarefulRunsAgree(env, states, events, i - 1);
      EveryRunIsOk(env, states, events, i - 1);
      assert IsStep(env, states[i - 1], events[i - 1], states[i - 1 + 1]);
      StepKeepsAgreement(env, states[i - 1], events[i - 1]);
    }
  }

  lemma InitiallyAgreed(s: State)
    requires Initial(s)
    ensures Agreed(s)
  {
  }

  ghost predicate HasRecord(w: World, id: string) {
    exists k :: k in w.executions && k.workflowId == id
  }

  /** At any quiet moment of a run in which no crash abandoned a duty: nothing is executing, exactly the approved
      workflows have a claimable task, and exactly the completed ones have an execution record. */
  lemma QuiescentAgreement(env: Services, states: seq<State>, events: seq<Event>, i: nat, id: string)
    requires RunsAllNodes(env) && IsRun(env, states, events) && i < |states|
    requires forall n :: 0 <= n < i ==> !AbandonsDuty(states[n], events[n])
    requires states[i].calls == map[]
    ensures var w := states[i].world;
            && (Claimable(w.queue, id) <==> id in w.store.workflows && w.store.workflows[id].status == Approved)
            && (HasRecord(w, id) <==> id in w.store.workflows && w.store.workflows[id].status == Completed)
            && (id in w.store.workflows ==> w.store.workflows[id].status != Executing)
  {
    EveryRunIsOk(env, states, events, i);
    CarefulRunsAgree(env, states, events, i);
    SettledWorld(states[i].world, id);
  }

  /** Nothing owed means the three adapters tell the same story about a workflow. */
  lemma SettledWorld(w: World, id: string)
    requires WorldOk(w)
    requires id in w.store.workflows ==> Owed(w, id).None?
    ensures Claimable(w.queue, id) <==> id in w.store.workflows && w.store.workflows[id].status == Approved
    ensures HasRecord(w, id) <==> id in w.store.workflows && w.store.workflows[id].status == Completed
    ensures id in w.store.workflows ==> w.store.workflows[id].status != Executing
  {
    hide WorldOk, Claimable;
    ClaimableMeansApproved(w, id);
    RecordMeansCompleted(w, id);
  }

  lemma ClaimableMeansApproved(w: World, id: string)
    requires WorldOk(w)
    requires id in w.store.workflows ==> Owed(w, id).None?
    ensures Claimable(w.queue, id) <==> id in w.store.workflows && w.store.workflows[id].status == Approved
  {
    hide StoreOk, KeysOk, ExecutionsOk, TaskBound, Pending, NoRepeats;
    PendingAreOrdered(w.queue.order, w.queue.completed);
    if TaskId(id) in w.queue.tasks {
      WorkIsClaimable(w, id);
      TaskMeansApproved(w, id);
    }
  }

  /** A workflow with a task was approved and not rejected. */
  lemma TaskMeansApproved(w: World, id: string)
    requires WorldOk(w) && TaskId(id) in w.queue.tasks
    ensures id in w.store.workflows && w.store.workflows[id].approvalDecision.Some?
    ensures w.store.workflows[id].status in {Approved, Executing, Completed, Expired}
  {
    hide KeysOk, ExecutionsOk, FollowsPath, Governed, NoRepeats;
    assert TaskBound(w.store, w.queue.tasks[TaskId(id)]);
    assert Sound(w.store.workflows[id]) && HasParts(w.store.workflows[id]);
  }

  lemma RecordMeansCompleted(w: World, id: string)
    requires WorldOk(w)
    requires id in w.store.workflows ==> Owed(w, id).None?
    ensures HasRecord(w, id) <==> id in w.store.workflows && w.store.workflows[id].status == Completed
  {
    hide Sound, KeysOk, QueueOk;
    if HasRecord(w, id) {
      var k :| k in w.executions && k.workflowId == id;
      assert Recorded(w.store, k, w.executions[k]);
    }
    if id in w.store.workflows && w.store.workflows[id].status == Completed {
      CompletedHasRecord(w, id);
    }
  }

  lemma CompletedHasRecord(w: World, id: string)
    requires WorldOk(w) && id in w.store.workflows && w.store.workflows[id].status == Completed
    ensures HasRecord(w, id)
  {
    hide Sound, KeysOk, QueueOk;
    assert ResultIsRecord(w.store.workflows[id], w.executions);
  }
}
