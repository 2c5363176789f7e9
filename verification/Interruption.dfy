/** A worker that claims the first waiting task, judges it, stores its verdict, and crashes right after. */
module Interruption {
  import opened Prelude
  import opened Domain
  import opened Adapters
  import opened Protocol
  import opened Invariants
  import opened Runs
  import opened Sequential
  import opened Draining
  import opened Paths
  import Governance

  /** The next step of the only call there is. */
  lemma OnlyCallSteps(env: Services, w: World, c: nat, call: Call, clock: Time, input: Input)
    requires Bound(w) && !call.Creating? && Resume(env, w, call, input).1.Continue?
    ensures var (v, progress) := Resume(env, w, call, input);
            IsStep(env, State(w, map[c := call], clock), Step(c, input), State(v, map[c := progress.call], input.now))
  {
    var (v, progress) := Resume(env, w, call, input);
    assert map[c := call][c := progress.call] == map[c := progress.call];
  }

  lemma ClaimStarts(env: Services, s: State, c: nat, principal: Principal, now: Time)
    requires Bound(s.world) && s.calls == map[] && MayProcess(principal) && s.world.queue.Claimed().1.Some?
    ensures var (queue, task) := s.world.queue.Claimed();
            IsStep(env, s, Start(c, ProcessNextTask(principal), now),
                   State(s.world.(queue := queue), map[c := Claimed(task.value)], now))
  {
    hide Pending;
  }

  lemma CrashStops(env: Services, w: World, c: nat, call: Call, clock: Time)
    requires Bound(w)
    ensures IsStep(env, State(w, map[c := call], clock), Crash(c), State(w, map[], clock))
  {
    assert map[c := call] - {c} == map[];
  }

  lemma ApprovedPartsFit(w: World, task: ExecutionTask)
    requires WorldOk(w) && TaskBound(w.store, task) && w.store.workflows[task.workflowId].status == Approved
    ensures var v := w.store.workflows[task.workflowId];
            && v.workflowId == task.workflowId && v.actionProposal.Some? && v.approvalDecision.Some?
            && AfterClaim(w.store, task)
               == Continue(Judging(Work(task, v.actionProposal.value), v, v.approvalDecision.value))
  {
    hide KeysOk, ExecutionsOk, QueueOk, FollowsPath;
    assert Sound(w.store.workflows[task.workflowId]) && HasParts(w.store.workflows[task.workflowId]);
  }

  predicate MayBegin(env: Services, w: Workflow) {
    env.policy(LocalContext(w.processingContext, Governance.ToolExecution)).executionAllowed
  }

  /** What a worker that reads the clock at `now` makes of an approved workflow. */
  function JudgedAt(env: Services, w: Workflow, now: Time): Workflow
    requires w.approvalDecision.Some?
  {
    if now > w.approvalDecision.value.expiresAt then Expire(w, now)
    else
      var context := LocalContext(w.processingContext, Governance.ToolExecution);
      BeginExecution(w, env.policy(context), context, now)
  }

  /** What the worker does after storing it. */
  function AfterVerdict(env: Services, work: Work, w: Workflow, now: Time): Call
    requires w.approvalDecision.Some?
  {
    if now > w.approvalDecision.value.expiresAt then Acknowledging(work.task, Err(ApprovalExpired))
    else Running(work, JudgedAt(env, w, now), now)
  }

  /** The three steps of a worker from its claim to its verdict. */
  lemma VerdictSteps(env: Services, w: World, task: ExecutionTask, current: Workflow, now: Time)
    requires Bound(w) && task.workflowId in w.store.workflows && w.store.workflows[task.workflowId] == current
    requires current.workflowId == task.workflowId
    requires current.status == Approved && current.actionProposal.Some? && current.approvalDecision.Some?
    requires now <= current.approvalDecision.value.expiresAt ==> MayBegin(env, current)
    requires AfterClaim(w.store, task)
             == Continue(Judging(Work(task, current.actionProposal.value), current, current.approvalDecision.value))
    ensures var work := Work(task, current.actionProposal.value);
            var judging := Judging(work, current, current.approvalDecision.value);
            var v := w.(store := Replaced(w.store, JudgedAt(env, current, now)));
            && Bound(v)
            && Resume(env, w, Claimed(task), Input(now, "")) == (w, Continue(judging))
            && AfterJudging(env, judging, now).Continue?
            && var storing := AfterJudging(env, judging, now).call;
               && !storing.Creating?
               && Resume(env, w, judging, Input(now, "")) == (w, Continue(storing))
               && Resume(env, w, storing, Input(now, "")) == (v, Continue(AfterVerdict(env, work, current, now)))
  {
  }

  /** The state after the interrupted worker: the head was delivered once more and the verdict is stored. */
  function Interrupted(env: Services, w: World, now: Time): World
    requires Bound(w) && w.queue.Claimed().1.Some?
    requires w.queue.Claimed().1.value.workflowId in w.store.workflows
    requires w.store.workflows[w.queue.Claimed().1.value.workflowId].approvalDecision.Some?
  {
    var (queue, task) := w.queue.Claimed();
    w.(queue := queue, store := Replaced(w.store, JudgedAt(env, w.store.workflows[task.value.workflowId], now)))
  }

  /** The first waiting task is that of an approved workflow. */
  predicate ReadyHead(w: World, id: string) {
    && w.queue.Waiting() != [] && w.queue.Waiting()[0] == TaskId(id)
    && id in w.store.workflows && w.store.workflows[id].status == Approved
    && w.store.workflows[id].approvalDecision.Some?
  }

  /** Five events: the worker claims, reads, judges, stores, and crashes. */
  lemma WorkerIsInterrupted(env: Services, s: State, c: nat, principal: Principal, id: string, now: Time)
    returns (path: seq<State>, events: seq<Event>)
    requires StateOk(s) && s.calls == map[] && MayProcess(principal) && ReadyHead(s.world, id)
    requires var current := s.world.store.workflows[id];
             now <= current.approvalDecision.value.expiresAt ==> MayBegin(env, current)
    ensures IsPath(env, path, events) && |events| == 5 && path[0] == s
    ensures events[0] == Start(c, ProcessNextTask(principal), now) && events[4] == Crash(c)
    ensures Bound(s.world) && s.world.queue.Claimed().1.Some? && s.world.queue.Claimed().1.value.workflowId == id
    ensures path[5] == State(Interrupted(env, s.world, now), map[], now)
    ensures path[4].world == path[5].world && path[4].calls.Keys == {c}
    ensures var current := s.world.store.workflows[id];
            current.actionProposal.Some?
            && path[4].calls[c] == AfterVerdict(env, Work(s.world.queue.Claimed().1.value, current.actionProposal.value),
                                                current, now)
  {
    hide WorldOk, TaskBound, Pending, IsStep, Resume, AfterVerdict, JudgedAt, AfterJudging;
    assert WorldOk(s.world);
    WorldIsBound(s.world);
    ClaimTakesTheHead(s.world);
    var input := Input(now, "");
    var task := s.world.queue.Claimed().1.value;
    var w := s.world.(queue := s.world.queue.Claimed().0);
    var current := w.store.workflows[id];
    WorldIsBound(w);
    ApprovedPartsFit(w, task);
    ClaimStarts(env, s, c, principal, now);
    var work := Work(task, current.actionProposal.value);
    var judging := Judging(work, current, current.approvalDecision.value);
    VerdictSteps(env, w, task, current, now);
    var storing := AfterJudging(env, judging, now).call;
    OnlyCallSteps(env, w, c, Claimed(task), now, input);
    OnlyCallSteps(env, w, c, judging, now, input);
    OnlyCallSteps(env, w, c, storing, now, input);
    var v := w.(store := Replaced(w.store, JudgedAt(env, current, now)));
    CrashStops(env, v, c, AfterVerdict(env, work, current, now), now);
    events := [Start(c, ProcessNextTask(principal), now), Step(c, input), Step(c, input), Step(c, input), Crash(c)];
    path := [s, State(w, map[c := Claimed(task)], now), State(w, map[c := judging], now),
             State(w, map[c := storing], now), State(v, map[c := AfterVerdict(env, work, current, now)], now),
             State(v, map[], now)];
  }

  /** Interrupted in time, the work is executing, has no record, and still waits first in the queue. */
  lemma InterruptedIsReady(env: Services, s: State, id: string, now: Time)
    requires StateOk(s) && ReadyHead(s.world, id)
    requires now <= s.world.store.workflows[id].approvalDecision.value.expiresAt
    ensures Bound(s.world) && s.world.queue.Claimed().1.Some? && s.world.queue.Claimed().1.value.workflowId == id
    ensures var w := Interrupted(env, s.world, now);
            && w.queue.Waiting() == s.world.queue.Waiting()
            && id in w.store.workflows && w.store.workflows[id].status == Executing
            && w.store.workflows[id].approvalDecision == s.world.store.workflows[id].approvalDecision
            && (forall k :: k in w.executions ==> k.workflowId != id)
  {
    hide WorldOk, Pending, TaskBound;
    assert WorldOk(s.world);
    ClaimTakesTheHead(s.world);
    WorldIsBound(s.world);
    StoredIsSound(s.world, id);
    ApprovedHasNoRecord(s.world, id);
  }

  /** Work on an approved workflow never has a record yet. */
  lemma ApprovedHasNoRecord(w: World, id: string)
    requires WorldOk(w) && id in w.store.workflows && w.store.workflows[id].status == Approved
    ensures forall k :: k in w.executions ==> k.workflowId != id
  {
    hide Sound, KeysOk, QueueOk;
    assert forall k :: k in w.executions ==> Recorded(w.store, k, w.executions[k]);
  }
}
