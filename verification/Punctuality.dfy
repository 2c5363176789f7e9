/** When effects take place: the time in an execution record against the expiry of the approval behind it. */
module Punctuality {
  import opened Prelude
  import opened Domain
  import opened Adapters
  import opened Protocol
  import opened Invariants
  import opened Runs
  import opened Sequential
  import opened Draining
  import opened Paths
  import opened Interruption

  // ----- One undisturbed worker -----

  /** An undisturbed worker on work without a record makes a late one exactly when it resumes an execution that had
      already begun, after the approval ran out; any record it makes carries its own clock reading. */
  lemma LateExactlyWhenResumedLate(env: Services, w: World, task: ExecutionTask, input: Input, later: Time)
    requires UsesBaseline(env) && WorldOk(w) && TaskBound(w.store, task)
    requires w.store.workflows[task.workflowId].status in {Approved, Executing}
    requires task.idempotencyKey !in w.executions
    ensures var current := w.store.workflows[task.workflowId];
            var expiresAt := current.approvalDecision.value.expiresAt;
            var executions := RunToEnd(env, w, Claimed(task), input, later).0.executions;
            && (task.idempotencyKey in executions <==> current.status == Executing || input.now <= expiresAt)
            && (task.idempotencyKey in executions ==> executions[task.idempotencyKey].executedAt == input.now)
            && (task.idempotencyKey in executions && executions[task.idempotencyKey].executedAt > expiresAt
                <==> current.status == Executing && input.now > expiresAt)
  {
    hide WorldOk, RunToEnd, UsesBaseline;
    WorldIsBound(w);
    WorkerAlone(env, w, task, input, later);
  }

  // ----- Any run -----

  /** In the n-th step a worker read the clock at `now` and went on to execute: either it started the execution and the
      approval was still valid, or the execution had been started before. */
  ghost predicate WentOn(states: seq<State>, events: seq<Event>, n: nat, id: string, now: Time)
    requires n < |events| == |states| - 1
  {
    && events[n].Step? && events[n].id in states[n].calls && events[n].input.now == now
    && var call := states[n].calls[events[n].id];
       && call.Judging? && call.snapshot.workflowId == id
       && (call.snapshot.status == Executing || (call.snapshot.status == Approved && now <= call.approval.expiresAt))
  }

  ghost predicate WentOnBefore(states: seq<State>, events: seq<Event>, i: nat, id: string, now: Time)
    requires i < |states| == |events| + 1
  {
    exists n :: 0 <= n < i && WentOn(states, events, n, id, now)
  }

  /** A call about to execute, or to store that it begins to. */
  ghost predicate CallWentOn(states: seq<State>, events: seq<Event>, i: nat, call: Call)
    requires i < |states| == |events| + 1
  {
    match call
    case Running(_, snapshot, now) => WentOnBefore(states, events, i, snapshot.workflowId, now)
    case Storing(snapshot, action, _, _) =>
      action.Begin? ==> WentOnBefore(states, events, i, snapshot.workflowId, action.at)
    case _ => true
  }

  ghost predicate AllWentOn(states: seq<State>, events: seq<Event>, i: nat)
    requires i < |states| == |events| + 1
  {
    && (forall c :: c in states[i].calls ==> CallWentOn(states, events, i, states[i].calls[c]))
    && (forall k :: k in states[i].world.executions ==>
          WentOnBefore(states, events, i, k.workflowId, states[i].world.executions[k].executedAt))
  }

  lemma EarlierWentOn(states: seq<State>, events: seq<Event>, i: nat, call: Call)
    requires i + 1 < |states| == |events| + 1 && CallWentOn(states, events, i, call)
    ensures CallWentOn(states, events, i + 1, call)
  {
  }

  lemma StartsDoNotExecute(env: Services, w: World, request: Request, now: Time)
    requires Bound(w)
    ensures var (v, progress) := Accept(env, w, request, now);
            && v.executions == w.executions
            && (progress.Continue? ==> !progress.call.Running? && !progress.call.Storing?)
  {
  }

  /** Where the next call of a step, and a new record, come from. */
  lemma ExecutionComesFrom(env: Services, w: World, call: Call, input: Input)
    requires Bound(w) && CallOk(w, call)
    ensures var (v, progress) := Resume(env, w, call, input);
            && (progress.Continue? && progress.call.Running? ==>
                  || (call.Judging? && call.snapshot == progress.call.snapshot && progress.call.now == input.now
                      && call.snapshot.status == Executing)
                  || (call.Storing? && call.action.Begin? && progress.call.now == call.action.at
                      && progress.call.snapshot.workflowId == call.snapshot.workflowId))
            && (progress.Continue? && progress.call.Storing? && progress.call.action.Begin? ==>
                  && call.Judging? && call.snapshot == progress.call.snapshot && progress.call.action.at == input.now
                  && call.snapshot.status == Approved && input.now <= call.approval.expiresAt)
            && (forall k :: k in v.executions ==>
                  || (k in w.executions && v.executions[k] == w.executions[k])
                  || (call.Running? && k.workflowId == call.snapshot.workflowId && v.executions[k].executedAt == call.now))
  {
    hide Sound, Evolves, Snapshot;
  }

  /** The call that takes a step, and the record it may have made. */
  lemma ResumedWentOn(env: Services, states: seq<State>, events: seq<Event>, i: nat)
    requires i + 1 < |states| == |events| + 1 && events[i].Step?
    requires IsStep(env, states[i], events[i], states[i + 1]) && StateOk(states[i])
    requires CallWentOn(states, events, i, states[i].calls[events[i].id])
    ensures var (v, progress) := Resume(env, states[i].world, states[i].calls[events[i].id], events[i].input);
            && (progress.Continue? ==> CallWentOn(states, events, i + 1, progress.call))
            && (forall k :: k in v.executions ==>
                  || (k in states[i].world.executions && v.executions[k] == states[i].world.executions[k])
                  || WentOnBefore(states, events, i + 1, k.workflowId, v.executions[k].executedAt))
  {
    hide WorldOk, CallOk, Resume, WentOn;
    var call, input := states[i].calls[events[i].id], events[i].input;
    ExecutionComesFrom(env, states[i].world, call, input);
    EarlierWentOn(states, events, i, call);
    if call.Judging? && (call.snapshot.status == Executing
                         || (call.snapshot.status == Approved && input.now <= call.approval.expiresAt)) {
      JudgingWentOn(states, events, i);
    }
  }

  lemma JudgingWentOn(states: seq<State>, events: seq<Event>, i: nat)
    requires i < |events| == |states| - 1 && events[i].Step? && events[i].id in states[i].calls
    requires var call := states[i].calls[events[i].id];
             call.Judging? && (call.snapshot.status == Executing
                               || (call.snapshot.status == Approved && events[i].input.now <= call.approval.expiresAt))
    ensures WentOnBefore(states, events, i + 1, states[i].calls[events[i].id].snapshot.workflowId, events[i].input.now)
  {
    assert WentOn(states, events, i, states[i].calls[events[i].id].snapshot.workflowId, events[i].input.now);
  }

  lemma StepWentOn(env: Services, states: seq<State>, events: seq<Event>, i: nat)
    requires i + 1 < |states| == |events| + 1
    requires IsStep(env, states[i], events[i], states[i + 1]) && StateOk(states[i])
    requires AllWentOn(states, events, i)
    ensures AllWentOn(states, events, i + 1)
  {
    hide WorldOk, CallOk, Accept, Resume, CallWentOn, WentOn;
    var s, e, t := states[i], events[i], states[i + 1];
    match e {
      case Start(_, request, now) =>
        StartsDoNotExecute(env, s.world, request, now);
        StartWentOn(states, events, i + 1, Accept(env, s.world, request, now).1);
      case Step(_, _) => ResumedWentOn(env, states, events, i);
      case Crash(_) =>
    }
    forall c | c in t.calls ensures CallWentOn(states, events, i + 1, t.calls[c]) {
      if c in s.calls && t.calls[c] == s.calls[c] {
        EarlierWentOn(states, events, i, s.calls[c]);
      }
    }
  }

  lemma StartWentOn(states: seq<State>, events: seq<Event>, i: nat, progress: Progress)
    requires i < |states| == |events| + 1
    requires progress.Continue? ==> !progress.call.Running? && !progress.call.Storing?
    ensures progress.Continue? ==> CallWentOn(states, events, i, progress.call)
  {
  }

  lemma {:induction false} EveryRunWentOn(env: Services, states: seq<State>, events: seq<Event>, i: nat)
    requires RunsAllNodes(env) && IsRun(env, states, events) && i < |states|
    ensures AllWentOn(states, events, i)
  {
    hide AllWentOn, StateOk, Possible, Next;
    if i == 0 {
      assert AllWentOn(states, events, 0) by {
        NobodyWentOn(states, events);
      }
    } else {
      EveryRunWentOn(env, states, events, i - 1);
      EveryRunIsOk(env, states, events, i - 1);
      assert IsStep(env, states[i - 1], events[i - 1], states[i - 1 + 1]);
      StepWentOn(env, states, events, i - 1);
    }
  }

  lemma NobodyWentOn(states: seq<State>, events: seq<Event>)
    requires |states| == |events| + 1 && Initial(states[0])
    ensures AllWentOn(states, events, 0)
  {
  }

  /** The approval a judging worker read is the one on the workflow ever after. */
  lemma ApprovalStays(env: Services, states: seq<State>, events: seq<Event>, n: nat, i: nat, c: nat)
    requires RunsAllNodes(env) && IsRun(env, states, events) && n <= i < |states|
    requires c in states[n].calls && states[n].calls[c].Judging?
    ensures var id := states[n].calls[c].snapshot.workflowId;
            && id in states[i].world.store.workflows
            && states[i].world.store.workflows[id].approvalDecision.Some?
            && states[i].world.store.workflows[id].approvalDecision.value.expiresAt == states[n].calls[c].approval.expiresAt
  {
    hide WorldOk, Sound, IsRun, QueueRely, ExecutionsRely;
    EveryRunIsOk(env, states, events, n);
    RunsOnlyEvolve(env, states, events, n, i);
    var call := states[n].calls[c];
    assert CallOk(states[n].world, call);
    var id := call.snapshot.workflowId;
    EvolutionComposes(call.snapshot, states[n].world.store.workflows[id], states[i].world.store.workflows[id]);
  }

  /** In any run the time in an execution record is the clock reading of a worker's judgement. If it is later than the
      approval's expiry, that worker resumed an execution that had been started before; so it is in time as long as
      nobody resumes late. */
  lemma LateRecordsWereResumed(env: Services, states: seq<State>, events: seq<Event>, i: nat, k: ExecutionKey)
    returns (n: nat)
    requires RunsAllNodes(env) && IsRun(env, states, events) && i < |states|
    requires k in states[i].world.executions
    ensures var w, at := states[i].world, states[i].world.executions[k].executedAt;
            && k.workflowId in w.store.workflows && w.store.workflows[k.workflowId].approvalDecision.Some?
            && n < i && WentOn(states, events, n, k.workflowId, at)
            && (at > w.store.workflows[k.workflowId].approvalDecision.value.expiresAt ==>
                  states[n].calls[events[n].id].snapshot.status == Executing)
  {
    assert |states| == |events| + 1;
    hide IsRun, StateOk;
    EveryRunWentOn(env, states, events, i);
    var at := states[i].world.executions[k].executedAt;
    assert WentOnBefore(states, events, i, k.workflowId, at);
    n :| 0 <= n < i && WentOn(states, events, n, k.workflowId, at);
    ApprovalStays(env, states, events, n, i, events[n].id);
  }

  // ----- A run with a late record -----

  /** A processing call alone that finds the first waiting task executing without a record stamps one with its time. */
  lemma ResumingStampsNow(env: Services, w: World, principal: Principal, id: string, now: Time)
    requires UsesBaseline(env) && RunsAllNodes(env) && WorldOk(w) && MayProcess(principal)
    requires w.queue.Waiting() != [] && w.queue.Waiting()[0] == TaskId(id)
    requires id in w.store.workflows && w.store.workflows[id].status == Executing
    requires w.store.workflows[id].approvalDecision.Some?
    requires forall k :: k in w.executions ==> k.workflowId != id
    ensures Bound(w)
    ensures var v := ProcessOne(env, w, principal, now).0;
            && id in v.store.workflows && v.store.workflows[id].status == Completed
            && v.store.workflows[id].executionResult.Some?
            && v.store.workflows[id].executionResult.value.executedAt == now
            && v.store.workflows[id].approvalDecision.Some?
            && v.store.workflows[id].approvalDecision.value.expiresAt
               == w.store.workflows[id].approvalDecision.value.expiresAt
  {
    hide WorldOk, UsesBaseline, Pending, StoreRely, QueueRely, ExecutionsRely;
    ServingIsOk(env, w, ProcessNextTask(principal), Input(now, ""), now);
    var v := ProcessOne(env, w, principal, now).0;
    EvolvesHere(w, v, id);
    ClaimTakesTheHead(w);
    var task := w.queue.Claimed().1.value;
    var w1 := w.(queue := w.queue.Claimed().0);
    WorldIsBound(w1);
    assert ProcessOne(env, w, principal, now) == RunToEnd(env, w1, Claimed(task), Input(now, ""), now);
    WorkerAlone(env, w1, task, Input(now, ""), now);
  }

  /** A worker stores that it begins in time and crashes before the effect; the next one, after the approval has run
      out, completes the work with a record of that time. */
  lemma RecordCanBeLate(env: Services, s: State, c: nat, principal: Principal, id: string, begun: Time, late: Time)
    returns (path: seq<State>, events: seq<Event>)
    requires RunsAllNodes(env) && UsesBaseline(env) && StateOk(s) && s.calls == map[] && MayProcess(principal)
    requires ReadyHead(s.world, id)
    requires var expiresAt := s.world.store.workflows[id].approvalDecision.value.expiresAt; begun <= expiresAt < late
    ensures IsPath(env, path, events) && path[0] == s && |events| > 5
    ensures events[0] == Start(c, ProcessNextTask(principal), begun) && events[4] == Crash(c)
    ensures events[5] == Start(c, ProcessNextTask(principal), late)
    ensures var v := path[|events|].world;
            && id in v.store.workflows && v.store.workflows[id].status == Completed
            && v.store.workflows[id].executionResult.Some? && v.store.workflows[id].approvalDecision.Some?
            && v.store.workflows[id].executionResult.value.executedAt == late
            && late > v.store.workflows[id].approvalDecision.value.expiresAt
  {
    hide WorldOk, Pending, TaskBound, UsesBaseline, RunsAllNodes, IsStep, Serve;
    BaselinePermitsExecution(env, s.world.store.workflows[id].processingContext);
    var first, before := WorkerIsInterrupted(env, s, c, principal, id, begun);
    InterruptedIsReady(env, s, id, begun);
    PathKeepsOk(env, first, before, 5);
    var w := first[5].world;
    assert WorldOk(w);
    ResumingStampsNow(env, w, principal, id, late);
    var second, after := ServingIsAPath(env, first[5], c, ProcessNextTask(principal), Input(late, ""), late);
    PathsJoin(env, first, before, second, after);
    path, events := first + second[1..], before + after;
  }
}
