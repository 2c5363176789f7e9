/** The three shared in-memory adapters. Each method runs under its adapter's lock, so each is one atomic step;
    the functions say what that step does to the adapter's contents, the classes do it in place. */
module Adapters {
  import opened Prelude
  import opened Domain

  // ----- Workflow repository -----

  datatype Store = Store(workflows: map<string, Workflow>, idempotency: map<(string, string), string>) {

    /** Every bound idempotency key names a stored workflow. */
    ghost predicate Bound() {
      forall k :: k in idempotency ==> idempotency[k] in workflows
    }

    function Created(w: Workflow, key: string): (Store, Result<Workflow, Error>)
      requires Bound()
    {
      var scoped := (w.ownerId, key);
      if scoped in idempotency then
        var existing := workflows[idempotency[scoped]];
        if existing.request != w.request || existing.requestedLocale != w.requestedLocale
        then (this, Err(IdempotencyConflict))
        else (this, Ok(existing))
      else (Store(workflows[w.workflowId := w], idempotency[scoped := w.workflowId]), Ok(w))
    }

    function Updated(w: Workflow, expectedVersion: nat): (Store, Result<Workflow, Error>) {
      if w.workflowId !in workflows || workflows[w.workflowId].stateVersion != expectedVersion
      then (this, Err(InvalidWorkflowState))
      else (this.(workflows := workflows[w.workflowId := w]), Ok(w))
    }
  }

  class InMemoryWorkflowRepository {
    var workflows: map<string, Workflow>
    var idempotency: map<(string, string), string>

    ghost function Contents(): Store
      reads this
    {
      Store(workflows, idempotency)
    }

    ghost predicate Valid()
      reads this
    {
      Contents().Bound()
    }

    constructor ()
      ensures Valid() && Contents() == Store(map[], map[])
    {
      workflows, idempotency := map[], map[];
    }

    method Create(w: Workflow, key: string) returns (r: Result<Workflow, Error>)
      requires Valid()
      modifies this
      ensures Valid()
      ensures (Contents(), r) == old(Contents()).Created(w, key)
    {
      var scoped := (w.ownerId, key);
      if scoped in idempotency {
        var existing := workflows[idempotency[scoped]];
        if existing.request != w.request || existing.requestedLocale != w.requestedLocale {
          return Err(IdempotencyConflict);
        }
        return Ok(existing);
      }
      workflows := workflows[w.workflowId := w];
      idempotency := idempotency[scoped := w.workflowId];
      return Ok(w);
    }

    method Get(workflowId: string) returns (r: Option<Workflow>)
      ensures r == if workflowId in Contents().workflows then Some(Contents().workflows[workflowId]) else None
    {
      r := if workflowId in workflows then Some(workflows[workflowId]) else None;
    }

    method Update(w: Workflow, expectedVersion: nat) returns (r: Result<Workflow, Error>)
      requires Valid()
      modifies this
      ensures Valid()
      ensures (Contents(), r) == old(Contents()).Updated(w, expectedVersion)
    {
      if w.workflowId !in workflows || workflows[w.workflowId].stateVersion != expectedVersion {
        return Err(InvalidWorkflowState);
      }
      workflows := workflows[w.workflowId := w];
      return Ok(w);
    }
  }

  // ----- Task queue -----

  /** The ids in `order` that are not in `completed`, in order. */
  function Pending(order: seq<TaskId>, completed: set<TaskId>): seq<TaskId> {
    if order == [] then []
    else (if order[0] in completed then [] else [order[0]]) + Pending(order[1..], completed)
  }

  datatype Queue = Queue(tasks: map<TaskId, ExecutionTask>, order: seq<TaskId>, completed: set<TaskId>) {

    /** Every id in the order has a task. */
    ghost predicate Bound() {
      forall id :: id in order ==> id in tasks
    }

    function Waiting(): seq<TaskId> {
      Pending(order, completed)
    }

    function Enqueued(task: ExecutionTask): (Queue, Result<ExecutionTask, Error>) {
      if task.taskId in tasks then
        var existing := tasks[task.taskId];
        (this, if existing.proposalDigest != task.proposalDigest then Err(IdempotencyConflict) else Ok(existing))
      else (this.(tasks := tasks[task.taskId := task], order := order + [task.taskId]), Ok(task))
    }

    /** Delivery goes to the first waiting task and counts one more attempt; nothing is reserved by it. */
    function Claimed(): (Queue, Option<ExecutionTask>)
      requires Bound()
    {
      PendingAreOrdered(order, completed);
      if Waiting() == [] then (this, None)
      else
        var id := Waiting()[0];
        var delivered := tasks[id].(deliveryAttempt := tasks[id].deliveryAttempt + 1);
        (this.(tasks := tasks[id := delivered]), Some(delivered))
    }

    function Acknowledged(id: TaskId): Queue {
      this.(completed := completed + {id})
    }
  }

  lemma {:induction false} PendingAreOrdered(order: seq<TaskId>, completed: set<TaskId>)
    ensures forall id :: id in Pending(order, completed) <==> id in order && id !in completed
  {
    if order != [] {
      PendingAreOrdered(order[1..], completed);
      assert order == [order[0]] + order[1..];
    }
  }

  lemma {:induction false} PendingSkips(order: seq<TaskId>, completed: set<TaskId>, i: nat)
    requires i <= |order|
    requires forall j :: 0 <= j < i ==> order[j] in completed
    ensures Pending(order, completed) == Pending(order[i..], completed)
  {
    if i > 0 {
      assert order[1..][i - 1..] == order[i..];
      PendingSkips(order[1..], completed, i - 1);
    } else {
      assert order[0..] == order;
    }
  }

  class InMemoryTaskQueue {
    var tasks: map<TaskId, ExecutionTask>
    var order: seq<TaskId>
    var completed: set<TaskId>

    ghost function Contents(): Queue
      reads this
    {
      Queue(tasks, order, completed)
    }

    ghost predicate Valid()
      reads this
    {
      Contents().Bound()
    }

    constructor ()
      ensures Valid() && Contents() == Queue(map[], [], {})
    {
      tasks, order, completed := map[], [], {};
    }

    method Enqueue(task: ExecutionTask) returns (r: Result<ExecutionTask, Error>)
      requires Valid()
      modifies this
      ensures Valid()
      ensures (Contents(), r) == old(Contents()).Enqueued(task)
    {
      if task.taskId in tasks {
        var existing := tasks[task.taskId];
        if existing.proposalDigest != task.proposalDigest {
          return Err(IdempotencyConflict);
        }
        return Ok(existing);
      }
      tasks := tasks[task.taskId := task];
      order := order + [task.taskId];
      return Ok(task);
    }

    method ClaimNext() returns (r: Option<ExecutionTask>)
      requires Valid()
      modifies this
      ensures Valid()
      ensures (Contents(), r) == old(Contents()).Claimed()
    {
      for i := 0 to |order|
        invariant forall j :: 0 <= j < i ==> order[j] in completed
        invariant Contents() == old(Contents())
      {
        if order[i] !in completed {
          PendingSkips(order, completed, i);
          var delivered := tasks[order[i]].(deliveryAttempt := tasks[order[i]].deliveryAttempt + 1);
          tasks := tasks[order[i] := delivered];
          return Some(delivered);
        }
      }
      PendingSkips(order, completed, |order|);
      return None;
    }

    method Complete(id: TaskId)
      requires Valid()
      modifies this
      ensures Valid()
      ensures Contents() == old(Contents()).Acknowledged(id)
    {
      completed := completed + {id};
    }
  }

  // ----- Ticket executor -----

  type Executions = map<ExecutionKey, ToolExecutionResult>

  function Executed(executions: Executions, task: ExecutionTask, proposal: ToolActionProposal, now: Time)
    : (Executions, Result<ToolExecutionResult, Error>)
  {
    if task.idempotencyKey in executions then
      var existing := executions[task.idempotencyKey];
      (executions,
       if existing.proposalDigest != proposal.proposalDigest then Err(IdempotencyConflict) else Ok(existing))
    else
      var result := ToolExecutionResult(
                      (task.idempotencyKey, proposal.proposalDigest), now, task.idempotencyKey, proposal.proposalDigest);
      (executions[task.idempotencyKey := result], Ok(result))
  }

  class SimulatedTicketExecutor {
    var executions: Executions

    constructor ()
      ensures executions == map[]
    {
      executions := map[];
    }

    method Execute(task: ExecutionTask, proposal: ToolActionProposal, now: Time)
      returns (r: Result<ToolExecutionResult, Error>)
      modifies this
      ensures (executions, r) == Executed(old(executions), task, proposal, now)
    {
      if task.idempotencyKey in executions {
        var existing := executions[task.idempotencyKey];
        if existing.proposalDigest != proposal.proposalDigest {
          return Err(IdempotencyConflict);
        }
        return Ok(existing);
      }
      var result := ToolExecutionResult(
        (task.idempotencyKey, proposal.proposalDigest), now, task.idempotencyKey, proposal.proposalDigest);
      executions := executions[task.idempotencyKey := result];
      return Ok(result);
    }
  }

  // ----- What the adapters promise on repetition and conflict -----

  /** Enqueueing under a known id changes nothing: the first task stands, and another proposal is a conflict. */
  lemma EnqueueingAgain(q: Queue, first: ExecutionTask, again: ExecutionTask)
    requires first.taskId !in q.tasks && again.taskId == first.taskId
    ensures var (r, stored) := q.Enqueued(first);
            && stored == Ok(first) && r.order == q.order + [first.taskId] && r.completed == q.completed
            && r.Enqueued(again)
               == (r, if again.proposalDigest == first.proposalDigest then Ok(first) else Err(IdempotencyConflict))
  {
  }

  /** Executing again under the same key makes nothing new: the first record stands, whatever the time, and another
      proposal is a conflict. */
  lemma ExecutingAgain(executions: Executions, first: ExecutionTask, p: ToolActionProposal, at: Time,
                       again: ExecutionTask, q: ToolActionProposal, later: Time)
    requires first.idempotencyKey !in executions && again.idempotencyKey == first.idempotencyKey
    ensures var (after, made) := Executed(executions, first, p, at);
            && made.Ok? && made.value.executedAt == at && made.value.proposalDigest == p.proposalDigest
            && after.Keys == executions.Keys + {first.idempotencyKey}
            && (forall k :: k in executions ==> after[k] == executions[k])
            && Executed(after, again, q, later)
               == (after, if q.proposalDigest == p.proposalDigest then made else Err(IdempotencyConflict))
  {
  }

  /** An update needs a stored workflow of the expected version; a refused one changes nothing, an accepted one only
      that workflow. */
  lemma UpdatingNeedsTheVersion(s: Store, w: Workflow, expected: nat)
    ensures var (t, r) := s.Updated(w, expected);
            && (r.Ok? <==> w.workflowId in s.workflows && s.workflows[w.workflowId].stateVersion == expected)
            && (r.Err? ==> r == Err(InvalidWorkflowState) && t == s)
            && (r.Ok? ==> && r.value == w && t.idempotency == s.idempotency && w.workflowId in t.workflows
                          && t.workflows[w.workflowId] == w && t.workflows.Keys == s.workflows.Keys
                          && forall id :: id in s.workflows && id != w.workflowId ==> t.workflows[id] == s.workflows[id])
  {
  }
}
