/** Emptying the queue one call at a time. */
module Draining {
  import opened Prelude
  import opened Domain
  import opened Adapters
  import opened Protocol
  import opened Invariants
  import opened Guarantees
  import opened Runs
  import opened Sequential

  predicate MayProcess(principal: Principal) {
    principal.roles * {Operator, Administrator} != {}
  }

  function ProcessOne(env: Services, w: World, principal: Principal, now: Time): (r: (World, Outcome))
    requires Bound(w)
    ensures Bound(r.0)
  {
    Serve(env, w, ProcessNextTask(principal), Input(now, ""), now)
  }

  /** One processing call after the other, at the given times. */
  function Drain(env: Services, w: World, principal: Principal, times: seq<Time>): (r: (World, seq<Outcome>))
    requires Bound(w)
    ensures Bound(r.0) && |r.1| == |times|
    decreases |times|
  {
    if times == [] then (w, [])
    else
      var (v, outcome) := ProcessOne(env, w, principal, times[0]);
      var (u, outcomes) := Drain(env, v, principal, times[1..]);
      (u, [outcome] + outcomes)
  }

  lemma {:induction false} AcknowledgingTheHead(order: seq<TaskId>, completed: set<TaskId>)
    requires NoRepeats(order) && Pending(order, completed) != []
    ensures Pending(order, completed + {Pending(order, completed)[0]}) == Pending(order, completed)[1..]
  {
    assert forall i :: 0 <= i < |order[1..]| ==> order[1..][i] == order[i + 1];
    if order[0] in completed {
      AcknowledgingTheHead(order[1..], completed);
    } else {
      AcknowledgingOthers(order[1..], completed, order[0]);
      assert Pending(order, completed)[0] == order[0];
    }
  }

  lemma {:induction false} AcknowledgingOthers(order: seq<TaskId>, completed: set<TaskId>, id: TaskId)
    requires id !in order
    ensures Pending(order, completed + {id}) == Pending(order, completed)
  {
    if order != [] {
      AcknowledgingOthers(order[1..], completed, id);
    }
  }

  // ----- One processing call -----

  /** The only workflow that may differ is the one of the task; its status was not terminal. */
  ghost predicate OthersUntouched(w: World, v: World, id: string) {
    && w.store.workflows.Keys == v.store.workflows.Keys
    && (forall i :: i in w.store.workflows && i != id ==> v.store.workflows[i] == w.store.workflows[i])
    && w.queue.tasks.Keys == v.queue.tasks.Keys
    && (forall t :: t in w.queue.tasks && t.workflowId != id ==> v.queue.tasks[t] == w.queue.tasks[t])
  }

  predicate OneMoreDelivery(w: World, v: World, t: TaskId) {
    && t in w.queue.tasks && t in v.queue.tasks
    && v.queue.tasks[t] == w.queue.tasks[t].(deliveryAttempt := w.queue.tasks[t].deliveryAttempt + 1)
  }

  /** The call ended the task's workflow, or found it ended already, and says so. */
  ghost predicate Settled(v: World, id: string, outcome: Outcome) {
    && id in v.store.workflows
    && (|| (outcome == Ok(v.store.workflows[id]) && v.store.workflows[id].status == Completed)
        || (outcome == Err(ApprovalExpired) && v.store.workflows[id].status == Expired))
  }

  lemma HeadIsStored(w: World)
    requires WorldOk(w) && w.queue.Waiting() != []
    ensures var head := w.queue.Waiting()[0];
            && head in w.queue.tasks && TaskBound(w.store, w.queue.tasks[head])
            && w.queue.tasks[head].workflowId == head.workflowId && head.workflowId in w.store.workflows
  {
    hide Sound, KeysOk, ExecutionsOk;
    PendingAreOrdered(w.queue.order, w.queue.completed);
  }

  /** Claiming hands out the head with one more delivery on it and leaves everything else alone. */
  lemma ClaimTakesTheHead(w: World)
    requires WorldOk(w) && w.queue.Waiting() != []
    ensures var head, v := w.queue.Waiting()[0], w.(queue := w.queue.Claimed().0);
            && WorldOk(v) && head in w.queue.tasks && head.workflowId in w.store.workflows
            && w.queue.Claimed().1
               == Some(w.queue.tasks[head].(deliveryAttempt := w.queue.tasks[head].deliveryAttempt + 1))
            && v.queue == w.queue.(tasks := w.queue.tasks[head := w.queue.Claimed().1.value])
            && head == TaskId(head.workflowId)
            && w.queue.Claimed().1.value.workflowId == head.workflowId && w.queue.Claimed().1.value.taskId == head
            && TaskBound(v.store, w.queue.Claimed().1.value) && WellFormedTask(w.queue.Claimed().1.value)
  {
    hide KeysOk, ExecutionsOk, Sound, Evolves;
    HeadIsStored(w);
    ClaimGuarantees(w);
  }

  /** One processing call on its own takes the head of the queue. It removes the head and settles its workflow, unless
      that workflow already expired: then the call fails and the head stays where it is. */
  lemma ProcessingTheHead(env: Services, w: World, principal: Principal, now: Time)
    requires UsesBaseline(env) && WorldOk(w) && MayProcess(principal) && w.queue.Waiting() != []
    ensures var (v, outcome) := ProcessOne(env, w, principal, now);
            var head := w.queue.Waiting()[0];
            && WorldOk(v)
            && head in w.queue.tasks && head.workflowId in w.store.workflows
            && OneMoreDelivery(w, v, head)
            && OthersUntouched(w, v, head.workflowId)
            && if w.store.workflows[head.workflowId].status == Expired
               then outcome == Err(InvalidWorkflowState) && v.queue.Waiting() == w.queue.Waiting() && v.store == w.store
               else Settled(v, head.workflowId, outcome) && v.queue.Waiting() == w.queue.Waiting()[1..]
  {
    hide WorldOk, TaskBound, UsesBaseline, Pending, Rely, RunToEnd, CallOk, WellFormedTask;
    var head := w.queue.Waiting()[0];
    WorldIsBound(w);
    ClaimTakesTheHead(w);
    var task := w.queue.Claimed().1.value;
    var w1 := w.(queue := w.queue.Claimed().0);
    WorldIsBound(w1);
    var input := Input(now, "");
    assert ProcessOne(env, w, principal, now) == RunToEnd(env, w1, Claimed(task), input, now);
    WorkerAlone(env, w1, task, input, now);
    ClaimedIsOk(w1, task);
    RunToEndIsOk(env, w1, Claimed(task), input, now);
    OrderHasNoRepeats(w);
    AcknowledgingTheHead(w.queue.order, w.queue.completed);
  }

  lemma ClaimedIsOk(w: World, task: ExecutionTask)
    requires WellFormedTask(task)
    ensures CallOk(w, Claimed(task))
  {
  }

  lemma OrderHasNoRepeats(w: World)
    requires WorldOk(w)
    ensures NoRepeats(w.queue.order)
  {
    hide Sound, KeysOk, ExecutionsOk;
  }

  // ----- Draining -----

  predicate ExpiredWaits(w: World, id: TaskId) {
    HasExpired(w, id.workflowId)
  }

  ghost predicate NothingExpiredWaits(w: World) {
    forall t :: t in w.queue.Waiting() ==> !ExpiredWaits(w, t)
  }

  /** These tasks were settled in this order with these outcomes and one delivery each, and nothing else changed. */
  ghost predicate Drained(w: World, v: World, ids: seq<TaskId>, outcomes: seq<Outcome>) {
    && |ids| == |outcomes| && w.queue.tasks.Keys == v.queue.tasks.Keys
    && (forall i :: 0 <= i < |ids| ==> Settled(v, ids[i].workflowId, outcomes[i]))
    && (forall i :: 0 <= i < |ids| ==> OneMoreDelivery(w, v, ids[i]))
    && (forall t :: t in w.queue.tasks && t !in ids ==>
          v.queue.tasks[t] == w.queue.tasks[t] && SameWorkflow(w, v, t.workflowId))
  }

  /** As long as no expired workflow waits among the first n, n calls settle the first n tasks in order. */
  lemma {:induction false} DrainsInOrder(env: Services, w: World, principal: Principal, times: seq<Time>)
    requires UsesBaseline(env) && WorldOk(w) && MayProcess(principal) && |times| <= |w.queue.Waiting()|
    requires forall i :: 0 <= i < |times| ==> !ExpiredWaits(w, w.queue.Waiting()[i])
    ensures var (v, outcomes) := Drain(env, w, principal, times);
            && WorldOk(v)
            && v.queue.Waiting() == w.queue.Waiting()[|times|..]
            && Drained(w, v, w.queue.Waiting()[..|times|], outcomes)
    decreases |times|
  {
    hide WorldOk, UsesBaseline, Pending, Drained, OneMoreDelivery, Settled, OthersUntouched, SameWorkflow, ProcessOne;
    WorldIsBound(w);
    var waiting := w.queue.Waiting();
    if times == [] {
      assert waiting[0..] == waiting && waiting[..0] == [];
      NothingDrained(w);
    } else {
      var (w1, outcome) := ProcessOne(env, w, principal, times[0]);
      ProcessingTheHead(env, w, principal, times[0]);
      WaitingHasNoRepeats(w);
      WaitingIsStored(w);
      assert w1.queue.Waiting() == waiting[1..];
      OthersStillWait(w, w1, waiting, |times|);
      DrainsInOrder(env, w1, principal, times[1..]);
      var (v, outcomes) := Drain(env, w1, principal, times[1..]);
      var later := waiting[1..][..|times| - 1];
      assert waiting[..|times|] == [waiting[0]] + later;
      assert forall t :: t in later ==> t in waiting;
      DrainPrepends(w, w1, v, waiting[0], later, outcome, outcomes);
    }
  }

  lemma OthersStillWait(w: World, w1: World, waiting: seq<TaskId>, n: nat)
    requires 0 < n <= |waiting| && NoRepeats(waiting) && OthersUntouched(w, w1, waiting[0].workflowId)
    requires forall t :: t in waiting ==> t == TaskId(t.workflowId)
    requires forall i :: 0 <= i < n ==> !ExpiredWaits(w, waiting[i])
    ensures forall i :: 0 <= i < n - 1 ==> !ExpiredWaits(w1, waiting[1..][i])
  {
    forall i | 0 <= i < n - 1 ensures !ExpiredWaits(w1, waiting[1..][i]) {
      assert waiting[1..][i] == waiting[i + 1] && waiting[i + 1] != waiting[0] && waiting[i + 1] in waiting;
    }
  }

  lemma NothingDrained(w: World)
    ensures Drained(w, w, [], [])
  {
  }

  predicate SameWorkflow(w: World, v: World, id: string) {
    && (id in w.store.workflows <==> id in v.store.workflows)
    && (id in w.store.workflows ==> v.store.workflows[id] == w.store.workflows[id])
  }

  lemma WaitingIsStored(w: World)
    requires WorldOk(w)
    ensures forall id :: id in w.queue.Waiting() ==> id in w.queue.tasks && id.workflowId in w.store.workflows
                                                     && id == TaskId(id.workflowId)
  {
    hide Sound, KeysOk, ExecutionsOk;
    PendingAreOrdered(w.queue.order, w.queue.completed);
    forall id | id in w.queue.Waiting() ensures id.workflowId in w.store.workflows {
      assert TaskBound(w.store, w.queue.tasks[id]);
    }
  }

  lemma {:induction false} PendingHasNoRepeats(order: seq<TaskId>, completed: set<TaskId>)
    requires NoRepeats(order)
    ensures NoRepeats(Pending(order, completed))
  {
    if order != [] {
      assert forall i :: 0 <= i < |order[1..]| ==> order[1..][i] == order[i + 1];
      PendingHasNoRepeats(order[1..], completed);
      PendingAreOrdered(order[1..], completed);
      var tail := Pending(order[1..], completed);
      assert forall i :: 0 <= i < |tail| ==> tail[i] in tail;
    }
  }

  lemma WaitingHasNoRepeats(w: World)
    requires WorldOk(w)
    ensures NoRepeats(w.queue.Waiting())
  {
    hide KeysOk, ExecutionsOk, Sound;
    PendingHasNoRepeats(w.queue.order, w.queue.completed);
  }

  lemma HasTask(w: World, v: World, t: TaskId)
    requires OneMoreDelivery(w, v, t)
    ensures t in w.queue.tasks && t in v.queue.tasks
  {
  }

  lemma SameTasks(w: World, v: World, id: string)
    requires OthersUntouched(w, v, id)
    ensures w.queue.tasks.Keys == v.queue.tasks.Keys
  {
  }

  lemma DeliveryAfterOthers(w: World, w1: World, v: World, first: TaskId, t: TaskId)
    requires OthersUntouched(w, w1, first.workflowId) && t != first && t in w.queue.tasks && OneMoreDelivery(w1, v, t)
    ensures OneMoreDelivery(w, v, t)
  {
  }

  lemma SettledAndDelivered(w: World, w1: World, v: World, t: TaskId, outcome: Outcome)
    requires Settled(w1, t.workflowId, outcome) && SameWorkflow(w1, v, t.workflowId) && OneMoreDelivery(w, w1, t)
    requires t in v.queue.tasks && t in w1.queue.tasks && v.queue.tasks[t] == w1.queue.tasks[t]
    ensures Settled(v, t.workflowId, outcome) && OneMoreDelivery(w, v, t)
  {
  }

  lemma OthersStay(w: World, w1: World, v: World, first: TaskId, t: TaskId)
    requires OthersUntouched(w, w1, first.workflowId) && t != first && t in w.queue.tasks
    requires v.queue.tasks.Keys == w1.queue.tasks.Keys
    requires t in w1.queue.tasks ==> v.queue.tasks[t] == w1.queue.tasks[t] && SameWorkflow(w1, v, t.workflowId)
    ensures t in v.queue.tasks && v.queue.tasks[t] == w.queue.tasks[t] && SameWorkflow(w, v, t.workflowId)
  {
  }

  /** Putting the first call and the remaining ones together. */
  lemma DrainPrepends(w: World, w1: World, v: World, first: TaskId, later: seq<TaskId>, outcome: Outcome,
                      outcomes: seq<Outcome>)
    requires first !in later && forall t :: t in later ==> t in w.queue.tasks
    requires OthersUntouched(w, w1, first.workflowId) && OneMoreDelivery(w, w1, first)
    requires Settled(w1, first.workflowId, outcome) && Drained(w1, v, later, outcomes)
    ensures Drained(w, v, [first] + later, [outcome] + outcomes)
  {
    hide Settled, OneMoreDelivery, SameWorkflow, OthersUntouched, Drained;
    FirstIsDrained(w, w1, v, first, later, outcome, outcomes);
    DrainDelivers(w, w1, v, first, later, outcomes);
    DrainKeepsOthers(w, w1, v, first, later, outcomes);
    DrainedTogether(w, v, first, later, outcome, outcomes);
  }

  lemma FirstIsDrained(w: World, w1: World, v: World, first: TaskId, later: seq<TaskId>, outcome: Outcome,
                       outcomes: seq<Outcome>)
    requires first !in later
    requires OthersUntouched(w, w1, first.workflowId) && OneMoreDelivery(w, w1, first)
    requires Settled(w1, first.workflowId, outcome) && Drained(w1, v, later, outcomes)
    ensures Settled(v, first.workflowId, outcome) && OneMoreDelivery(w, v, first)
    ensures w.queue.tasks.Keys == v.queue.tasks.Keys
  {
    hide Settled, OneMoreDelivery, SameWorkflow, OthersUntouched;
    HasTask(w, w1, first);
    SameTasks(w, w1, first.workflowId);
    SettledAndDelivered(w, w1, v, first, outcome);
  }

  lemma DrainDelivers(w: World, w1: World, v: World, first: TaskId, later: seq<TaskId>, outcomes: seq<Outcome>)
    requires OthersUntouched(w, w1, first.workflowId) && first !in later
    requires forall t :: t in later ==> t in w.queue.tasks
    requires Drained(w1, v, later, outcomes)
    ensures |later| == |outcomes|
    ensures forall i :: 0 <= i < |later| ==> Settled(v, later[i].workflowId, outcomes[i])
    ensures forall i :: 0 <= i < |later| ==> OneMoreDelivery(w, v, later[i])
  {
    hide Settled, OneMoreDelivery, SameWorkflow, OthersUntouched;
    forall i | 0 <= i < |later| ensures OneMoreDelivery(w, v, later[i]) {
      assert later[i] in later;
      DeliveryAfterOthers(w, w1, v, first, later[i]);
    }
  }

  lemma DrainKeepsOthers(w: World, w1: World, v: World, first: TaskId, later: seq<TaskId>, outcomes: seq<Outcome>)
    requires OthersUntouched(w, w1, first.workflowId) && Drained(w1, v, later, outcomes)
    ensures forall t :: t in w.queue.tasks && t !in [first] + later ==>
              t in v.queue.tasks && v.queue.tasks[t] == w.queue.tasks[t] && SameWorkflow(w, v, t.workflowId)
  {
    hide Settled, OneMoreDelivery, SameWorkflow, OthersUntouched;
    SameTasks(w, w1, first.workflowId);
    forall t | t in w.queue.tasks && t !in [first] + later
      ensures t in v.queue.tasks && v.queue.tasks[t] == w.queue.tasks[t] && SameWorkflow(w, v, t.workflowId)
    {
      OthersStay(w, w1, v, first, t);
    }
  }

  lemma DrainedTogether(w: World, v: World, first: TaskId, later: seq<TaskId>, outcome: Outcome, outcomes: seq<Outcome>)
    requires |later| == |outcomes| && w.queue.tasks.Keys == v.queue.tasks.Keys
    requires Settled(v, first.workflowId, outcome) && OneMoreDelivery(w, v, first)
    requires forall i :: 0 <= i < |later| ==> Settled(v, later[i].workflowId, outcomes[i])
    requires forall i :: 0 <= i < |later| ==> OneMoreDelivery(w, v, later[i])
    requires forall t :: t in w.queue.tasks && t !in [first] + later ==>
               t in v.queue.tasks && v.queue.tasks[t] == w.queue.tasks[t] && SameWorkflow(w, v, t.workflowId)
    ensures Drained(w, v, [first] + later, [outcome] + outcomes)
  {
    hide Settled, OneMoreDelivery, SameWorkflow;
  }

  /** Once an expired workflow heads the queue, every processing call fails and the queue stays as it is. */
  lemma {:induction false} ExpiredHeadBlocks(env: Services, w: World, principal: Principal, times: seq<Time>)
    requires UsesBaseline(env) && WorldOk(w) && MayProcess(principal)
    requires w.queue.Waiting() != [] && ExpiredWaits(w, w.queue.Waiting()[0])
    ensures var (v, outcomes) := Drain(env, w, principal, times);
            && v.queue.Waiting() == w.queue.Waiting() && v.store == w.store
            && forall i :: 0 <= i < |times| ==> outcomes[i] == Err(InvalidWorkflowState)
    decreases |times|
  {
    hide WorldOk, UsesBaseline;
    WorldIsBound(w);
    if times != [] {
      ProcessingTheHead(env, w, principal, times[0]);
      ExpiredHeadBlocks(env, ProcessOne(env, w, principal, times[0]).0, principal, times[1..]);
    }
  }

  lemma {:induction false} DrainInTwoParts(env: Services, w: World, principal: Principal, a: seq<Time>, b: seq<Time>)
    requires Bound(w)
    ensures Drain(env, w, principal, a + b).0 == Drain(env, Drain(env, w, principal, a).0, principal, b).0
    decreases |a|
  {
    if a == [] {
      assert a + b == b;
    } else {
      DrainInTwoParts(env, ProcessOne(env, w, principal, a[0]).0, principal, a[1..], b);
      assert (a + b)[1..] == a[1..] + b;
    }
  }

  /** An expired workflow in the n-th place stops the drain there. */
  lemma DrainStopsAtExpired(env: Services, w: World, principal: Principal, times: seq<Time>, n: nat)
    requires UsesBaseline(env) && WorldOk(w) && MayProcess(principal) && n <= |times| && n < |w.queue.Waiting()|
    requires ExpiredWaits(w, w.queue.Waiting()[n])
    requires forall i :: 0 <= i < n ==> !ExpiredWaits(w, w.queue.Waiting()[i])
    ensures Drain(env, w, principal, times).0.queue.Waiting() == w.queue.Waiting()[n..]
  {
    hide WorldOk, UsesBaseline, Pending, Drain;
    WorldIsBound(w);
    DrainReachesExpired(env, w, principal, times[..n]);
    ExpiredHeadBlocks(env, Drain(env, w, principal, times[..n]).0, principal, times[n..]);
    DrainInTwoParts(env, w, principal, times[..n], times[n..]);
    assert times == times[..n] + times[n..];
  }

  lemma DrainReachesExpired(env: Services, w: World, principal: Principal, times: seq<Time>)
    requires UsesBaseline(env) && WorldOk(w) && MayProcess(principal) && |times| < |w.queue.Waiting()|
    requires ExpiredWaits(w, w.queue.Waiting()[|times|])
    requires forall i :: 0 <= i < |times| ==> !ExpiredWaits(w, w.queue.Waiting()[i])
    ensures var v := Drain(env, w, principal, times).0;
            && WorldOk(v) && v.queue.Waiting() == w.queue.Waiting()[|times|..]
            && ExpiredWaits(v, w.queue.Waiting()[|times|])
  {
    hide WorldOk, UsesBaseline, Pending, Drain, Settled, OneMoreDelivery;
    WorldIsBound(w);
    var waiting := w.queue.Waiting();
    DrainsInOrder(env, w, principal, times);
    WaitingHasNoRepeats(w);
    WaitingIsStored(w);
    assert waiting[|times|] in waiting && waiting[|times|] !in waiting[..|times|];
    assert SameWorkflow(w, Drain(env, w, principal, times).0, waiting[|times|].workflowId);
  }

  /** As many calls as tasks empty the queue exactly when no expired workflow is waiting, and then in order. */
  lemma DrainsExactlyWhenNothingExpiredWaits(env: Services, w: World, principal: Principal, times: seq<Time>)
    requires UsesBaseline(env) && WorldOk(w) && MayProcess(principal) && |times| == |w.queue.Waiting()|
    ensures var (v, outcomes) := Drain(env, w, principal, times);
            && (NothingExpiredWaits(w) <==> v.queue.Waiting() == [])
            && (NothingExpiredWaits(w) ==> Drained(w, v, w.queue.Waiting(), outcomes))
  {
    hide WorldOk, UsesBaseline, Pending, Drain, Drained;
    WorldIsBound(w);
    var waiting := w.queue.Waiting();
    if NothingExpiredWaits(w) {
      assert waiting[..|times|] == waiting;
      DrainsInOrder(env, w, principal, times);
    } else {
      var n := FirstExpired(w, waiting);
      DrainStopsAtExpired(env, w, principal, times, n);
    }
  }

  lemma FirstExpired(w: World, waiting: seq<TaskId>) returns (n: nat)
    requires exists id :: id in waiting && ExpiredWaits(w, id)
    ensures n < |waiting| && ExpiredWaits(w, waiting[n])
    ensures forall i :: 0 <= i < n ==> !ExpiredWaits(w, waiting[i])
  {
    n := 0;
    while !ExpiredWaits(w, waiting[n])
      invariant n < |waiting|
      invariant forall i :: 0 <= i < n ==> !ExpiredWaits(w, waiting[i])
      decreases |waiting| - n
    {
      if n + 1 == |waiting| {
        assert false;
      }
      n := n + 1;
    }
  }
}
