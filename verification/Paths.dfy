/** Pieces of runs: joining them, and the ones that calls served alone take. */
module Paths {
  import opened Prelude
  import opened Domain
  import opened Protocol
  import opened Invariants
  import opened Guarantees
  import opened Runs
  import opened Sequential

  ghost predicate IsPath(env: Services, path: seq<State>, events: seq<Event>) {
    && |path| == |events| + 1
    && forall i :: 0 <= i < |events| ==> IsStep(env, path[i], events[i], path[i + 1])
  }

  lemma PathPrepends(env: Services, s: State, e: Event, path: seq<State>, events: seq<Event>)
    requires IsPath(env, path, events) && IsStep(env, s, e, path[0])
    ensures IsPath(env, [s] + path, [e] + events)
  {
    hide IsStep;
    forall i | 0 <= i < |[e] + events| ensures IsStep(env, ([s] + path)[i], ([e] + events)[i], ([s] + path)[i + 1]) {
      if i > 0 {
        assert ([s] + path)[i] == path[i - 1] && ([e] + events)[i] == events[i - 1] && ([s] + path)[i + 1] == path[i];
      }
    }
  }

  lemma PathsJoin(env: Services, first: seq<State>, events: seq<Event>, second: seq<State>, more: seq<Event>)
    requires IsPath(env, first, events) && IsPath(env, second, more) && first[|events|] == second[0]
    ensures var all := first + second[1..];
            && IsPath(env, all, events + more) && all[0] == first[0] && all[|events + more|] == second[|more|]
  {
    hide IsStep;
    var all := first + second[1..];
    forall i | 0 <= i < |events + more| ensures IsStep(env, all[i], (events + more)[i], all[i + 1]) {
      if i < |events| {
        assert all[i] == first[i] && all[i + 1] == first[i + 1] && (events + more)[i] == events[i];
      } else {
        var k := i - |events|;
        assert all[i] == second[k] && all[i + 1] == second[k + 1] && (events + more)[i] == more[k];
      }
    }
  }

  /** A run goes on along any path from its last state. */
  lemma RunContinues(env: Services, states: seq<State>, events: seq<Event>, path: seq<State>, more: seq<Event>)
    requires IsRun(env, states, events) && IsPath(env, path, more) && path[0] == states[|events|]
    ensures var all := states + path[1..];
            IsRun(env, all, events + more) && all[|events + more|] == path[|more|]
  {
    hide IsStep;
    PathsJoin(env, states, events, path, more);
  }

  lemma {:induction false} PathKeepsOk(env: Services, path: seq<State>, events: seq<Event>, i: nat)
    requires RunsAllNodes(env) && IsPath(env, path, events) && StateOk(path[0]) && i < |path|
    ensures StateOk(path[i])
  {
    hide StateOk, Possible, Next;
    if i > 0 {
      PathKeepsOk(env, path, events, i - 1);
      assert IsStep(env, path[i - 1], events[i - 1], path[i - 1 + 1]);
      StepKeepsOk(env, path[i - 1], events[i - 1]);
    }
  }

  lemma OnlyCreationCreates(env: Services, w: World, request: Request, now: Time)
    requires Bound(w)
    ensures var progress := Accept(env, w, request, now).1;
            progress.Continue? && progress.call.Creating? ==> request.CreateWorkflow?
  {
  }

  /** Finishing a call alone is a path of that call's own steps; the other calls stay where they are. */
  lemma {:induction false} FinishingIsAPath(env: Services, s: State, c: nat, input: Input, later: Time)
    returns (path: seq<State>, events: seq<Event>)
    requires Bound(s.world) && c in s.calls
    requires s.calls[c].Creating? ==> input.freshId !in s.world.store.workflows
    ensures IsPath(env, path, events) && path[0] == s
    ensures path[|events|].world == RunToEnd(env, s.world, s.calls[c], input, later).0
    ensures path[|events|].calls == s.calls - {c}
    decreases Rank(s.calls[c])
  {
    hide Resume;
    var call := s.calls[c];
    var step := if call.Applying? then input.(now := later) else input;
    ResumeAdvances(env, s.world, call, step);
    CreatingComesFirst(env, s.world, call, step);
    var (w, progress) := Resume(env, s.world, call, step);
    var next := State(w, Settle(s.calls, c, progress), step.now);
    assert IsStep(env, s, Step(c, step), next);
    if progress.Return? {
      path, events := [s, next], [Step(c, step)];
    } else {
      var rest, more := FinishingIsAPath(env, next, c, input, later);
      PathPrepends(env, s, Step(c, step), rest, more);
      path, events := [s] + rest, [Step(c, step)] + more;
      assert next.calls - {c} == s.calls - {c};
    }
  }

  /** A whole request served alone is a path of the interleaving model that leaves the calls in flight untouched. */
  lemma ServingIsAPath(env: Services, s: State, c: nat, request: Request, input: Input, later: Time)
    returns (path: seq<State>, events: seq<Event>)
    requires Bound(s.world) && Possible(s, Start(c, request, input.now))
    requires request.CreateWorkflow? ==> input.freshId !in s.world.store.workflows
    ensures IsPath(env, path, events) && path[0] == s
    ensures events != [] && events[0] == Start(c, request, input.now)
    ensures path[|events|].world == Serve(env, s.world, request, input, later).0
    ensures path[|events|].calls == s.calls
  {
    hide Accept;
    AcceptKeepsBound(env, s.world, request, input.now);
    StartKeepsStore(env, s.world, request, input.now);
    OnlyCreationCreates(env, s.world, request, input.now);
    var (w, progress) := Accept(env, s.world, request, input.now);
    var e := Start(c, request, input.now);
    var next := State(w, Settle(s.calls, c, progress), input.now);
    assert IsStep(env, s, e, next);
    if progress.Return? {
      path, events := [s, next], [e];
      assert next.calls == s.calls;
    } else {
      var rest, more := FinishingIsAPath(env, next, c, input, later);
      PathPrepends(env, s, e, rest, more);
      path, events := [s] + rest, [e] + more;
      assert next.calls - {c} == s.calls;
    }
  }

  lemma EvolvesHere(v: World, w: World, id: string)
    requires Rely(v, w) && id in v.store.workflows
    ensures id in w.store.workflows && Evolves(v.store.workflows[id], w.store.workflows[id])
  {
  }

  lemma ServingIsOk(env: Services, w: World, request: Request, input: Input, later: Time)
    requires RunsAllNodes(env) && WorldOk(w) && !request.ExecuteTask?
    requires request.CreateWorkflow? ==> input.freshId !in w.store.workflows
    ensures Bound(w) && WorldOk(Serve(env, w, request, input, later).0)
    ensures Rely(w, Serve(env, w, request, input, later).0)
  {
    hide WorldOk, CallOk, Rely, Accept;
    WorldIsBound(w);
    AcceptGuarantees(env, w, request, input.now);
    OnlyCreationCreates(env, w, request, input.now);
    var (v, progress) := Accept(env, w, request, input.now);
    WorldIsBound(v);
    if progress.Continue? {
      StartKeepsStore(env, w, request, input.now);
      RunToEndIsOk(env, v, progress.call, input, later);
      RelyComposes(w, v, RunToEnd(env, v, progress.call, input, later).0);
    }
  }
}
