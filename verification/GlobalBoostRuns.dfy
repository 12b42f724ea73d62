/**
 Runs of the global boost controller: any reconciles, one after the other, with user
 activity between and during them and with calls that fail.
 */
module GlobalBoostRuns {
  import opened Cluster
  import opened ClusterApi
  import opened ClusterLog
  import opened Convergence
  import opened GlobalBoostController

  /**
   One reconcile of a run: the states before and after it, its time, the whole log after
   it and where its own writes begin in it, and how it ended.
   */
  datatype Step = Step(
    request: string, before: State, after: State,
    from: nat, to: nat, first: nat, log: seq<Write>, result: Result, conflict: bool)

  /** What a reconcile of `g` achieves if nobody interferes and no call fails. */
  ghost predicate Served(s: State, s': State, g: string, result: Result)
  {
    && (Live(s, g) ==>
          if HasFinalizer(s, g) then result.Complete? && Converged(s', g)
          else result.Requeue? && Live(s', g) && HasFinalizer(s', g))
    && (g in s.globals && s.globals[g].deleting ==>
          result.Complete? && NoChildren(s', g) && !HasFinalizer(s', g))
    && (g !in s.globals || Converged(s, g) ==> s' == s)
  }

  ghost predicate GoodStep(script: Script, start: State, step: Step)
  {
    && Inv(step.before) && Inv(step.after) && step.from <= step.to
    && step.after == Replay(script, step.log, start, step.to)
    && Traced(script, start, step.before, step.first, step.after, step.log, step.request)
    && (step.conflict ==> SwapSeen(script, step.from, step.to, step.request))
    && (Calm(script, step.from, step.to) ==>
          && OthersKept(step.before, step.after, step.request) && SpecKept(step.before, step.after, step.request)
          && !step.conflict)
    && (Calm(script, step.from, step.to) && Faultless(script, step.from, step.to) ==>
          Served(step.before, step.after, step.request, step.result))
  }

  /** A reconcile comes after a state, a log and a time; users act in between. */
  ghost predicate Follows(script: Script, s: State, log: seq<Write>, time: nat, step: Step)
  {
    && step.before == UsersTurn(script(time), s) && step.from == time + 1
    && log <= step.log && step.first == |log|
  }

  /** User activity, then one reconcile. */
  method RunOne(api: ApiServer, request: string) returns (r: Result, ghost step: Step)
    requires api.Valid()
    modifies api
    ensures api.Valid() && GoodStep(api.script, api.start, step) && step.request == request && step.result == r
    ensures Follows(api.script, old(api.Now()), old(api.log), old(api.clock), step)
    ensures step.after == api.Now() && step.log == api.log && step.to == api.clock
  {
    var _ := api.NextTurn("", "");
    ghost var before, from := api.Now(), api.clock;
    var conflict;
    r, conflict := Reconcile(api, request);
    step := Step(request, before, api.Now(), from, api.clock, |old(api.log)|, api.log, r, conflict);
    assert ReplayedAt(api.script, api.log, api.start, api.clock, api.Now(), api.clock);
  }

  /** Where a run begins: the state, the log and the time. */
  datatype Origin = Origin(s: State, log: seq<Write>, time: nat)

  ghost predicate StepAt(script: Script, start: State, o: Origin, requests: seq<string>, steps: seq<Step>, i: int)
    requires |steps| == |requests|
  {
    0 <= i < |steps| ==>
      && GoodStep(script, start, steps[i]) && steps[i].request == requests[i]
      && if i == 0 then Follows(script, o.s, o.log, o.time, steps[0])
         else Follows(script, steps[i - 1].after, steps[i - 1].log, steps[i - 1].to, steps[i])
  }

  /** The steps of a run, each of which begins where the one before it ended. */
  ghost predicate IsRun(script: Script, start: State, o: Origin, requests: seq<string>, steps: seq<Step>)
  {
    && |steps| == |requests|
    && forall i {:trigger StepAt(script, start, o, requests, steps, i)} :: StepAt(script, start, o, requests, steps, i)
  }

  /** Where a run leads. */
  function End(o: Origin, steps: seq<Step>): Origin
  {
    if steps == [] then o
    else
      var last := steps[|steps| - 1];
      Origin(last.after, last.log, last.to)
  }

  lemma RunMore(script: Script, start: State, o: Origin, requests: seq<string>, steps: seq<Step>, request: string,
                step: Step)
    requires IsRun(script, start, o, requests, steps) && GoodStep(script, start, step) && step.request == request
    requires var end := End(o, steps);
             Follows(script, end.s, end.log, end.time, step)
    ensures IsRun(script, start, o, requests + [request], steps + [step])
  {
    var requests', steps' := requests + [request], steps + [step];
    forall i
      ensures StepAt(script, start, o, requests', steps', i)
    {
      assert StepAt(script, start, o, requests, steps, i);
    }
  }

  ghost function OriginOf(api: ApiServer): Origin
    reads api
  {
    Origin(api.Now(), api.log, api.clock)
  }

  /**
   Any run: requests for any global boosts in any order, with arbitrary user activity
   between and during the reconciles, and calls that fail at any point.
   */
  method RunReconciles(api: ApiServer, requests: seq<string>) returns (results: seq<Result>, ghost steps: seq<Step>)
    requires api.Valid()
    modifies api
    ensures api.Valid()
    ensures IsRun(api.script, api.start, old(OriginOf(api)), requests, steps)
    ensures OriginOf(api) == End(old(OriginOf(api)), steps)
    ensures |results| == |steps| && forall i :: 0 <= i < |steps| ==> results[i] == steps[i].result
  {
    results, steps := [], [];
    for n := 0 to |requests|
      invariant api.Valid()
      invariant IsRun(api.script, api.start, old(OriginOf(api)), requests[..n], steps)
      invariant OriginOf(api) == End(old(OriginOf(api)), steps)
      invariant |results| == |steps| && forall i :: 0 <= i < |steps| ==> results[i] == steps[i].result
    {
      var r, step := RunOne(api, requests[n]);
      RunMore(api.script, api.start, old(OriginOf(api)), requests[..n], steps, requests[n], step);
      assert requests[..n + 1] == requests[..n] + [requests[n]];
      results, steps := results + [r], steps + [step];
    }
    assert requests[..|requests|] == requests;
  }
}
