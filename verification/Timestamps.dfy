/** With a clock that never runs backwards, recorded histories are in chronological order. */
module Timestamps {
  import opened Prelude
  import opened Domain
  import opened Adapters
  import opened Protocol
  import opened Invariants
  import opened Runs

  ghost predicate Chronological(ts: seq<StateTransition>) {
    forall i, j :: 0 <= i < j < |ts| ==> ts[i].at <= ts[j].at
  }

  /** The history is in order and reaches no further than the given time. */
  ghost predicate InOrderUntil(w: Workflow, time: Time) {
    Chronological(w.transitions) && forall i :: 0 <= i < |w.transitions| ==> w.transitions[i].at <= time
  }

  /** What a call has read from the clock lies between its snapshot's history and the present. */
  ghost predicate CallInOrder(call: Call, clock: Time) {
    match call
    case Creating(draft, _) => draft.createdAt <= clock
    case Storing(snapshot, action, _, _) => InOrderUntil(snapshot, action.at) && action.at <= clock
    case Running(_, snapshot, now) => InOrderUntil(snapshot, now) && now <= clock
    case _ => true
  }

  ghost predicate TimeOk(s: State) {
    && (forall id :: id in s.world.store.workflows ==> InOrderUntil(s.world.store.workflows[id], s.clock))
    && (forall c :: c in s.calls ==> CallInOrder(s.calls[c], s.clock))
  }

  lemma ActionsStayInOrder(w: Workflow, action: Action)
    requires Enabled(w, action) && InOrderUntil(w, action.at)
    ensures InOrderUntil(Apply(w, action), action.at)
  {
    var v := Apply(w, action);
    assert forall i :: |w.transitions| <= i < |v.transitions| ==> v.transitions[i].at == action.at;
    assert forall i :: 0 <= i < |w.transitions| ==> v.transitions[i] == w.transitions[i];
  }

  /** An earlier value of an ordered workflow is ordered. */
  lemma SnapshotInOrder(s: Store, snapshot: Workflow, clock: Time)
    requires Snapshot(s, snapshot)
    requires InOrderUntil(s.workflows[snapshot.workflowId], clock)
    ensures InOrderUntil(snapshot, clock)
  {
    hide Sound;
    var current := s.workflows[snapshot.workflowId];
    assert forall i :: 0 <= i < |snapshot.transitions| ==> snapshot.transitions[i] == current.transitions[i];
  }

  lemma LaterIsStillInOrder(w: Workflow, a: Time, b: Time)
    requires InOrderUntil(w, a) && a <= b
    ensures InOrderUntil(w, b)
  {
  }

  /** A step at or after the current time leaves the moving call in order... */
  lemma CallStaysInOrder(env: Services, s: State, c: nat, input: Input)
    requires StateOk(s) && TimeOk(s) && Possible(s, Step(c, input)) && s.clock <= input.now && Bound(s.world)
    ensures var progress := Resume(env, s.world, s.calls[c], input).1;
            progress.Continue? ==> CallInOrder(progress.call, input.now)
  {
    hide Snapshot, WorldOk, Enabled, HoldsWhatItNeeds, WorkFits, Chronological, InOrderUntil, Resume, Sound;
    var call := s.calls[c];
    assert CallOk(s.world, call) && CallInOrder(call, s.clock);
    ReadingsCarryOver(env, s.world, call, input);
    match call
    case Storing(snapshot, action, _, _) => ActionsStayInOrder(snapshot, action);
    case Applying(snapshot, _, _, _) => SnapshotNowInOrder(s, snapshot, input.now);
    case Deciding(snapshot, _, _, _, _, _) => SnapshotNowInOrder(s, snapshot, input.now);
    case Judging(_, snapshot, _) => SnapshotNowInOrder(s, snapshot, input.now);
    case _ =>
  }

  /** A call that goes on with a clock reading has just taken it, or had it before with the same or the stored value. */
  lemma ReadingsCarryOver(env: Services, w: World, call: Call, input: Input)
    requires Bound(w)
    ensures var progress := Resume(env, w, call, input).1;
            progress.Continue? ==>
              match progress.call
              case Creating(_, _) => false
              case Storing(snapshot, action, _, _) =>
                || ((call.Applying? || call.Deciding? || call.Judging?) && snapshot == call.snapshot && action.at == input.now)
                || (call.Running? && snapshot == call.snapshot && action.at == call.now)
              case Running(_, snapshot, now) =>
                || (call.Judging? && snapshot == call.snapshot && now == input.now)
                || (call.Storing? && snapshot == call.next && now == call.action.at)
              case _ => true
  {
    hide AppliedPlan, RecordApproval, Expire, BeginExecution, Pending;
  }

  lemma SnapshotNowInOrder(s: State, snapshot: Workflow, now: Time)
    requires TimeOk(s) && Snapshot(s.world.store, snapshot) && s.clock <= now
    ensures InOrderUntil(snapshot, now)
  {
    hide Sound, Evolves;
    LaterIsStillInOrder(s.world.store.workflows[snapshot.workflowId], s.clock, now);
    SnapshotInOrder(s.world.store, snapshot, now);
  }

  /** ...and the store too. */
  lemma StoreStaysInOrder(env: Services, s: State, c: nat, input: Input)
    requires StateOk(s) && TimeOk(s) && Possible(s, Step(c, input)) && s.clock <= input.now && Bound(s.world)
    ensures var v := Resume(env, s.world, s.calls[c], input).0;
            forall id :: id in v.store.workflows ==> InOrderUntil(v.store.workflows[id], input.now)
  {
    hide Sound, Evolves, WorldOk, Enabled, Apply, HoldsWhatItNeeds, InOrderUntil, Pending;
    var w, call := s.world, s.calls[c];
    assert CallOk(w, call) && CallInOrder(call, s.clock);
    forall id | id in w.store.workflows ensures InOrderUntil(w.store.workflows[id], input.now) {
      LaterIsStillInOrder(w.store.workflows[id], s.clock, input.now);
    }
    match call
    case Storing(snapshot, action, next, _) =>
      StoringGuarantees(w, call);
      ActionsStayInOrder(snapshot, action);
      LaterIsStillInOrder(next, action.at, input.now);
    case Creating(draft, _) => CreatedInOrder(draft, input);
    case _ =>
  }

  lemma CreatedInOrder(d: Draft, input: Input)
    requires d.createdAt <= input.now
    ensures InOrderUntil(Receive(input.freshId, d.ownerId, d.request, d.requestedLocale, d.context, d.decision, d.createdAt),
                         input.now)
  {
  }

  lemma StepKeepsTime(env: Services, s: State, e: Event)
    requires StateOk(s) && TimeOk(s) && Bound(s.world) && Possible(s, e)
    requires s.clock <= Next(env, s, e).clock
    ensures TimeOk(Next(env, s, e))
  {
    hide StateOk, Resume, InOrderUntil;
    var t := Next(env, s, e);
    match e
    case Step(c, input) =>
      CallStaysInOrder(env, s, c, input);
      StoreStaysInOrder(env, s, c, input);
    case Start(_, _, now) =>
      forall id | id in t.world.store.workflows ensures InOrderUntil(t.world.store.workflows[id], now) {
        LaterIsStillInOrder(s.world.store.workflows[id], s.clock, now);
      }
    case Crash(_) =>
  }

  /** Under a clock that never runs backwards every stored history is in chronological order, whatever the
      interleaving, and ends no later than now. */
  lemma {:induction false} HistoriesAreChronological(env: Services, states: seq<State>, events: seq<Event>, i: nat)
    requires RunsAllNodes(env) && IsRun(env, states, events) && i < |states|
    requires forall n :: 0 <= n < |events| ==> states[n].clock <= states[n + 1].clock
    ensures TimeOk(states[i])
    ensures forall id :: id in states[i].world.store.workflows ==>
              Chronological(states[i].world.store.workflows[id].transitions)
  {
    hide StateOk, Possible, Next, CallInOrder;
    if i > 0 {
      HistoriesAreChronological(env, states, events, i - 1);
      EveryRunIsOk(env, states, events, i - 1);
      assert IsStep(env, states[i - 1], events[i - 1], states[i - 1 + 1]);
      assert states[i - 1].clock <= states[i - 1 + 1].clock;
      StepKeepsTime(env, states[i - 1], events[i - 1]);
    }
  }

  /** Every stored history of every run follows the documented state graph, and its version is the length of its path. */
  lemma HistoriesAreDocumented(env: Services, states: seq<State>, events: seq<Event>, i: nat, id: string)
    requires RunsAllNodes(env) && IsRun(env, states, events) && i < |states|
    requires id in states[i].world.store.workflows
    ensures var w := states[i].world.store.workflows[id];
            var ts := w.transitions;
            && |ts| == w.stateVersion == VersionOf(w.status, w.approvalDecision.Some?) > 0
            && ts[0].previous == None && ts[0].current == Received && ts[|ts| - 1].current == w.status
            && (forall n :: 0 < n < |ts| ==> ts[n].previous == Some(ts[n - 1].current))
            && (forall n :: 0 <= n < |ts| ==> DocumentedEdge(ts[n].previous, ts[n].current))
            && (forall n :: 0 <= n < |ts| ==> ts[n].actor == ActorOf(ts[n].current))
            && ts[0].at == w.createdAt
  {
    hide Sound, KeysOk, QueueOk, ExecutionsOk;
    EveryRunIsOk(env, states, events, i);
    SoundHistoryIsDocumented(states[i].world.store.workflows[id]);
  }
}
