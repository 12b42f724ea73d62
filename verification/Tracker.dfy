/**
 One registered boost: the pods it tracks, its policies and its counters.

 What the API server answers to the reverts of a boost is fixed in advance but
 arbitrary: for every attempt it has some copy of the pod, and each call ends in some
 way. What an attempt then does to the local copy is what `RevertModes` says.
 */
module Tracker {
  import opened Wrappers
  import opened Quantities
  import opened Selectors
  import opened Pods
  import opened Policies
  import opened RevertModes

  datatype PodCondition = PodCondition(kind: string, status: string)

  const POD_SCHEDULED := "PodScheduled"
  const TRUE_STATUS := "True"

  /** The fixed-duration policy: not yet expired, counted from the first scheduled condition. */
  function FixedValid(duration: int, conditions: seq<Condition>, now: int): bool
  {
    if conditions == [] then true
    else if conditions[0].kind == POD_SCHEDULED && conditions[0].status == TRUE_STATUS then
      conditions[0].lastTransition + duration > now
    else FixedValid(duration, conditions[1..], now)
  }

  /** The pod-condition policy: the condition has not been met. */
  predicate ConditionValid(c: PodCondition, conditions: seq<Condition>)
  {
    forall i :: 0 <= i < |conditions| ==> !(conditions[i].kind == c.kind && conditions[i].status == c.status)
  }

  /** The condition policy, if there is one, asks for the pod to be reverted. */
  predicate Met(condition: Option<PodCondition>, pod: Pod)
  {
    condition.Some? && !ConditionValid(condition.value, pod.conditions)
  }

  /** The fixed-duration policy, if there is one, asks for the pod to be reverted. */
  predicate Overdue(duration: Option<int>, pod: Pod, now: int)
  {
    duration.Some? && !FixedValid(duration.value, pod.conditions, now)
  }

  // ---------------------------------------------------------------------------
  // Policies of the API object
  // ---------------------------------------------------------------------------

  datatype PolicySpec = PolicySpec(
    container: string,
    fixedResources: Option<(Quantity, Quantity)>,
    percentageIncrease: Option<Int64>)

  datatype Spec = Spec(
    name: string,
    namespace: string,
    selector: Selector,
    containerPolicies: seq<PolicySpec>,
    fixedDuration: Option<int>,
    podCondition: Option<PodCondition>)

  predicate OnePolicy(s: PolicySpec)
  {
    s.fixedResources.Some? != s.percentageIncrease.Some?
  }

  function ToPolicy(s: PolicySpec): Policy
    requires OnePolicy(s)
  {
    if s.fixedResources.Some? then Fixed(s.fixedResources.value.0, s.fixedResources.value.1)
    else Percentage(s.percentageIncrease.value)
  }

  predicate OnePolicyEach(specs: seq<PolicySpec>)
  {
    forall i :: 0 <= i < |specs| ==> OnePolicy(specs[i])
  }

  /** Each container gets the policy of its last entry. */
  function PolicyMap(specs: seq<PolicySpec>): map<string, Policy>
    requires OnePolicyEach(specs)
  {
    if specs == [] then map[]
    else
      var last := specs[|specs| - 1];
      PolicyMap(specs[..|specs| - 1])[last.container := ToPolicy(last)]
  }

  lemma {:induction false} LastEntryWins(specs: seq<PolicySpec>, i: nat)
    requires OnePolicyEach(specs) && i < |specs|
    requires forall j :: i < j < |specs| ==> specs[j].container != specs[i].container
    ensures specs[i].container in PolicyMap(specs)
    ensures PolicyMap(specs)[specs[i].container] == ToPolicy(specs[i])
  {
    if i == |specs| - 1 {
    } else {
      LastEntryWins(specs[..|specs| - 1], i);
    }
  }

  /** Fails exactly when some entry does not name exactly one kind of policy. */
  method MapResourcePolicy(specs: seq<PolicySpec>) returns (r: Option<map<string, Policy>>)
    ensures r == if OnePolicyEach(specs) then Some(PolicyMap(specs)) else None
  {
    var policies: map<string, Policy> := map[];
    var failed := false;
    for n := 0 to |specs|
      invariant failed <==> !OnePolicyEach(specs[..n])
      invariant !failed ==> policies == PolicyMap(specs[..n])
    {
      assert specs[..n + 1][..n] == specs[..n] && specs[..n + 1][n] == specs[n];
      if !OnePolicy(specs[n]) {
        failed := true;
      } else {
        policies := policies[specs[n].container := ToPolicy(specs[n])];
        assert OnePolicyEach(specs[..n + 1]) <==> OnePolicyEach(specs[..n]) by {
          assert forall i :: 0 <= i < n ==> specs[..n + 1][i] == specs[..n][i];
        }
      }
    }
    assert specs[..|specs|] == specs;
    return if failed then None else Some(policies);
  }

  // ---------------------------------------------------------------------------
  // Counting boosted containers
  // ---------------------------------------------------------------------------

  /** The number of boosted containers of the named pods. */
  ghost function CountOf(pods: map<string, Pod>, names: set<string>): nat
    requires names <= pods.Keys
  {
    if names == {} then 0
    else
      var name :| name in names;
      BoostContainersLen(pods[name]) + CountOf(pods, names - {name})
  }

  ghost function Count(pods: map<string, Pod>): nat
  {
    CountOf(pods, pods.Keys)
  }

  lemma {:induction false} CountOfWithout(pods: map<string, Pod>, names: set<string>, name: string)
    requires names <= pods.Keys && name in names
    ensures CountOf(pods, names) == BoostContainersLen(pods[name]) + CountOf(pods, names - {name})
    decreases names
  {
    var first :| first in names &&
                 CountOf(pods, names) == BoostContainersLen(pods[first]) + CountOf(pods, names - {first});
    if first != name {
      CountOfWithout(pods, names - {first}, name);
      CountOfWithout(pods, names - {name}, first);
      assert names - {first} - {name} == names - {name} - {first};
    }
  }

  lemma {:induction false} CountOfSame(pods: map<string, Pod>, pods': map<string, Pod>, names: set<string>)
    requires names <= pods.Keys && names <= pods'.Keys
    requires forall name :: name in names ==> pods[name] == pods'[name]
    ensures CountOf(pods, names) == CountOf(pods', names)
    decreases names
  {
    if names == {} {
    } else {
      var name :| name in names;
      CountOfWithout(pods, names, name);
      CountOfWithout(pods', names, name);
      CountOfSame(pods, pods', names - {name});
    }
  }

  lemma CountDelete(pods: map<string, Pod>, name: string)
    ensures Count(pods) == Count(pods - {name}) + (if name in pods then BoostContainersLen(pods[name]) else 0)
  {
    var rest := pods - {name};
    assert rest.Keys == pods.Keys - {name};
    if name in pods {
      CountOfWithout(pods, pods.Keys, name);
    } else {
      assert rest == pods;
    }
    CountOfSame(pods, rest, rest.Keys);
  }

  lemma CountUpdate(pods: map<string, Pod>, name: string, pod: Pod)
    ensures Count(pods[name := pod]) == Count(pods - {name}) + BoostContainersLen(pod)
  {
    var pods' := pods[name := pod];
    CountDelete(pods', name);
    assert pods' - {name} == pods - {name};
  }

  // ---------------------------------------------------------------------------
  // The API server
  // ---------------------------------------------------------------------------

  /** `attempt(n, pod)` is what the `n`-th attempt to revert comes to if it is made with this copy of the pod. */
  datatype Answers = Answers(legacy: bool, attempt: (nat, Pod) -> Attempt)

  /** The attempt is one on some copy of the same pod on the server, with some outcome of the calls. */
  ghost predicate Answered(a: Answers, n: nat, pod: Pod)
  {
    exists server: Pod, calls: Calls ::
      SamePod(server, pod) && a.attempt(n, pod) == AttemptBy(a.legacy, pod, server, calls)
  }

  ghost predicate Faithful(a: Answers)
  {
    forall n, pod {:trigger Answered(a, n, pod)} :: Answered(a, n, pod)
  }

  /** The copy of the pod that the attempt leaves; its identity is written out because no attempt changes it. */
  function LocalAfter(a: Answers, n: nat, pod: Pod): Pod
  {
    a.attempt(n, pod).local.(name := pod.name, namespace := pod.namespace)
  }

  /** The copy that a failed attempt leaves is the one that `RevertModes` describes. */
  lemma AttemptLeaves(a: Answers, n: nat, pod: Pod)
    requires Faithful(a)
    ensures exists server: Pod, calls: Calls ::
              && SamePod(server, pod)
              && a.attempt(n, pod) == AttemptBy(a.legacy, pod, server, calls)
              && LocalAfter(a, n, pod) == AttemptBy(a.legacy, pod, server, calls).local
  {
    assert Answered(a, n, pod);
    var server: Pod, calls: Calls :|
      SamePod(server, pod) && a.attempt(n, pod) == AttemptBy(a.legacy, pod, server, calls);
    AttemptKeepsIdentity(a.legacy, pod, server, calls);
  }

  /** One attempt to revert a pod, and whether it succeeded. */
  datatype Revert = Revert(pod: Pod, ok: bool)

  // ---------------------------------------------------------------------------
  // The boost
  // ---------------------------------------------------------------------------

  predicate FiledUnder(m: map<string, Pod>, n: string)
  {
    n in m ==> m[n].name == n
  }

  ghost predicate Filed(m: map<string, Pod>)
  {
    forall n {:trigger FiledUnder(m, n)} :: FiledUnder(m, n)
  }

  /** Pods filed under their own names. */
  type PodMap = m: map<string, Pod> | Filed(m)

  lemma FiledPut(m: PodMap, pod: Pod)
    ensures Filed(m[pod.name := pod])
  {
    var m' := m[pod.name := pod];
    forall n
      ensures FiledUnder(m', n)
    {
      assert FiledUnder(m, n);
    }
  }

  lemma FiledWithout(m: PodMap, name: string)
    ensures Filed(m - {name})
  {
    forall n
      ensures FiledUnder(m - {name}, n)
    {
      assert FiledUnder(m, n);
    }
  }

  /**
   The tracked pods after a failed attempt. If the tracked copy is the very object that
   was passed in (`shared`), it is as the attempt left it; this takes equal contents.
   */
  function Worked(m: map<string, Pod>, pod: Pod, local: Pod, shared: bool): map<string, Pod>
  {
    if shared && pod.name in m && m[pod.name] == pod then m[pod.name := local] else m
  }

  class StartupCpuBoost {
    const name: string
    const namespace: string
    const server: Answers
    var selector: Selector
    var resourcePolicies: map<string, Policy>
    var fixedDuration: Option<int>
    var podCondition: Option<PodCondition>
    var pods: PodMap
    var activeContainerBoosts: int
    var totalContainerBoosts: int

    /** Every attempt to revert a pod so far. */
    var reverts: seq<Revert>

    predicate Matches(pod: Pod)
      reads this`selector
    {
      Selectors.Matches(selector, pod.labels)
    }

    /** Whether the pod-condition policy asks for the pod to be reverted. */
    predicate ConditionMet(pod: Pod)
      reads this`podCondition
    {
      Met(podCondition, pod)
    }

    /** Whether the fixed-duration policy asks for the pod to be reverted. */
    predicate Expired(pod: Pod, now: int)
      reads this`fixedDuration
    {
      Overdue(fixedDuration, pod, now)
    }

    constructor (spec: Spec, policies: map<string, Policy>, server: Answers)
      ensures name == spec.name && namespace == spec.namespace && selector == spec.selector
      ensures fixedDuration == spec.fixedDuration && podCondition == spec.podCondition
      ensures this.server == server && resourcePolicies == policies && pods == map[] && reverts == []
      ensures activeContainerBoosts == totalContainerBoosts == 0
    {
      name, namespace, selector := spec.name, spec.namespace, spec.selector;
      fixedDuration, podCondition := spec.fixedDuration, spec.podCondition;
      this.server, resourcePolicies, pods, reverts := server, policies, map[], [];
      activeContainerBoosts, totalContainerBoosts := 0, 0;
    }

    /** Recounts the active containers; a newly tracked pod also adds to the total. */
    method UpdateStats(created: Option<Pod>)
      modifies `activeContainerBoosts, `totalContainerBoosts
      ensures activeContainerBoosts == Count(pods)
      ensures totalContainerBoosts == old(totalContainerBoosts) +
                (if created.Some? then BoostContainersLen(created.value) else 0)
    {
      var active := 0;
      var left := pods.Keys;
      while left != {}
        invariant left <= pods.Keys
        invariant totalContainerBoosts == old(totalContainerBoosts)
        invariant active + CountOf(pods, left) == Count(pods)
      {
        var name :| name in left;
        CountOfWithout(pods, left, name);
        active := active + BoostContainersLen(pods[name]);
        left := left - {name};
      }
      activeContainerBoosts := active;
      if created.Some? {
        totalContainerBoosts := totalContainerBoosts + BoostContainersLen(created.value);
      }
    }

    /** Removes a pod from the tracking and recounts. */
    method Untrack(name: string)
      modifies `pods, `activeContainerBoosts, `totalContainerBoosts
      ensures pods == old(pods) - {name} && totalContainerBoosts == old(totalContainerBoosts)
      ensures activeContainerBoosts == Count(pods)
    {
      FiledWithout(pods, name);
      pods := pods - {name};
      UpdateStats(None);
    }

    /**
     Reverts the pod on the server. Success ends its tracking; a failure leaves the
     local copy as the attempt left it, which is the tracked one if it was passed in.
     */
    method RevertResources(pod: Pod, shared: bool) returns (ok: bool)
      modifies `pods, `activeContainerBoosts, `totalContainerBoosts, `reverts
      ensures ok == server.attempt(|old(reverts)|, pod).ok
      ensures reverts == old(reverts) + [Revert(pod, ok)] && totalContainerBoosts == old(totalContainerBoosts)
      ensures ok ==> pods == old(pods) - {pod.name} && activeContainerBoosts == Count(pods)
      ensures !ok ==> pods == Worked(old(pods), pod, LocalAfter(server, |old(reverts)|, pod), shared)
      ensures !ok ==> activeContainerBoosts == old(activeContainerBoosts)
    {
      var attempt := server.attempt(|reverts|, pod);
      var local := LocalAfter(server, |reverts|, pod);
      reverts := reverts + [Revert(pod, attempt.ok)];
      if !attempt.ok {
        if shared && pod.name in pods && pods[pod.name] == pod {
          FiledPut(pods, local);
          pods := pods[pod.name := local];
        }
        return false;
      }
      Untrack(pod.name);
      return true;
    }

    /** Tracks the pod, or its newer copy, and recounts. */
    method Track(pod: Pod)
      modifies `pods, `activeContainerBoosts, `totalContainerBoosts
      ensures pods == old(pods)[pod.name := pod]
      ensures activeContainerBoosts == Count(pods)
      ensures totalContainerBoosts == old(totalContainerBoosts) +
                (if pod.name in old(pods) then 0 else BoostContainersLen(pod))
    {
      var existing := pod.name in pods;
      FiledPut(pods, pod);
      pods := pods[pod.name := pod];
      UpdateStats(if existing then None else Some(pod));
    }

    /** Tracks the pod, or its newer copy, and reverts it if its condition has been met. */
    method UpsertPod(pod: Pod) returns (ok: bool)
      modifies `pods, `activeContainerBoosts, `totalContainerBoosts, `reverts
      ensures ok == (ConditionMet(pod) ==> server.attempt(|old(reverts)|, pod).ok)
      ensures reverts == old(reverts) + (if ConditionMet(pod) then [Revert(pod, ok)] else [])
      ensures pods == if !ConditionMet(pod) then old(pods)[pod.name := pod]
                      else if ok then old(pods) - {pod.name}
                      else old(pods)[pod.name := LocalAfter(server, |old(reverts)|, pod)]
      ensures totalContainerBoosts == old(totalContainerBoosts) +
                (if pod.name in old(pods) then 0 else BoostContainersLen(pod))
      ensures activeContainerBoosts == Count(if ok then pods else old(pods)[pod.name := pod])
    {
      Track(pod);
      ok := true;
      if ConditionMet(pod) {
        ok := RevertResources(pod, true);
        assert old(pods)[pod.name := pod] - {pod.name} == old(pods) - {pod.name};
      }
    }

    method DeletePod(pod: Pod)
      modifies `pods, `activeContainerBoosts, `totalContainerBoosts
      ensures pods == old(pods) - {pod.name} && totalContainerBoosts == old(totalContainerBoosts)
      ensures activeContainerBoosts == Count(pods)
    {
      Untrack(pod.name);
    }

    /** The tracked pods whose fixed duration has expired, each once. */
    method ValidateFixedPolicy(now: int) returns (violated: seq<Pod>, ghost names: seq<string>)
      ensures |violated| == |names| && NoDuplicates(names)
      ensures forall n :: n in names <==> n in pods && Expired(pods[n], now)
      ensures forall i :: 0 <= i < |names| ==> names[i] in pods && violated[i] == pods[names[i]]
      ensures forall i :: 0 <= i < |names| ==> violated[i].name == names[i]
    {
      violated, names := [], [];
      if fixedDuration.Some? {
        var left := pods.Keys;
        while left != {}
          invariant left <= pods.Keys
          invariant |violated| == |names| && NoDuplicates(names)
          invariant forall n :: n in names <==> n in pods && n !in left && Expired(pods[n], now)
          invariant forall i :: 0 <= i < |names| ==> names[i] in pods && violated[i] == pods[names[i]]
          invariant forall i :: 0 <= i < |names| ==> violated[i].name == names[i]
        {
          var n :| n in left;
          left := left - {n};
          assert FiledUnder(pods, n);
          if !FixedValid(fixedDuration.value, pods[n].conditions, now) {
            violated, names := violated + [pods[n]], names + [n];
          }
        }
      }
    }

    /** Takes over a changed API object; a selector or policy that cannot be used changes nothing. */
    method UpdateFromSpec(spec: Spec) returns (ok: bool)
      modifies `selector, `resourcePolicies, `fixedDuration, `podCondition
      ensures ok <==> Parses(spec.selector) && OnePolicyEach(spec.containerPolicies)
      ensures ok ==> resourcePolicies == PolicyMap(spec.containerPolicies)
      ensures ok ==>
                selector == spec.selector && fixedDuration == spec.fixedDuration && podCondition == spec.podCondition
      ensures !ok ==> unchanged(this)
    {
      if !Parses(spec.selector) {
        return false;
      }
      var policies := MapResourcePolicy(spec.containerPolicies);
      if policies.None? {
        return false;
      }
      selector, resourcePolicies := spec.selector, policies.value;
      fixedDuration, podCondition := spec.fixedDuration, spec.podCondition;
      return true;
    }
  }

  /** A boost for an API object, unless its selector or policies cannot be used. */
  method NewStartupCpuBoost(spec: Spec, server: Answers) returns (r: Option<StartupCpuBoost>)
    ensures r.Some? <==> Parses(spec.selector) && OnePolicyEach(spec.containerPolicies)
    ensures r.Some? ==>
              var b := r.value;
              && fresh(b)
              && b.name == spec.name && b.namespace == spec.namespace && b.selector == spec.selector
              && b.resourcePolicies == PolicyMap(spec.containerPolicies)
              && b.fixedDuration == spec.fixedDuration && b.podCondition == spec.podCondition
              && b.server == server && b.pods == map[] && b.reverts == []
              && b.activeContainerBoosts == b.totalContainerBoosts == 0
  {
    if !Parses(spec.selector) {
      return None;
    }
    var policies := MapResourcePolicy(spec.containerPolicies);
    if policies.None? {
      return None;
    }
    var b := new StartupCpuBoost(spec, policies.value, server);
    return Some(b);
  }

  // ---------------------------------------------------------------------------
  // Runs
  // ---------------------------------------------------------------------------

  datatype Event =
    | PodUpserted(pod: Pod)
    | PodDeleted(pod: Pod)
    | PodExpired(pod: Pod, shared: bool)
    | SpecChanged(spec: Spec)

  /** What a run leaves between two events. */
  datatype Snapshot = Snapshot(pods: map<string, Pod>, condition: Option<PodCondition>, reverts: seq<Revert>)

  /** An upsert fails if and only if the condition is met and the revert fails. */
  predicate UpsertOk(server: Answers, s: Snapshot, pod: Pod)
  {
    Met(s.condition, pod) ==> server.attempt(|s.reverts|, pod).ok
  }

  function AfterUpsert(server: Answers, s: Snapshot, pod: Pod): Snapshot
  {
    if !Met(s.condition, pod) then s.(pods := s.pods[pod.name := pod])
    else
      var pods := if UpsertOk(server, s, pod) then s.pods - {pod.name}
                  else s.pods[pod.name := LocalAfter(server, |s.reverts|, pod)];
      s.(pods := pods, reverts := s.reverts + [Revert(pod, UpsertOk(server, s, pod))])
  }

  function AfterRevert(server: Answers, s: Snapshot, pod: Pod, shared: bool): Snapshot
  {
    var pods := if server.attempt(|s.reverts|, pod).ok then s.pods - {pod.name}
                else Worked(s.pods, pod, LocalAfter(server, |s.reverts|, pod), shared);
    s.(pods := pods, reverts := s.reverts + [Revert(pod, server.attempt(|s.reverts|, pod).ok)])
  }

  /** What one event does, and whether it succeeds. */
  ghost predicate EventStep(server: Answers, before: Snapshot, e: Event, ok: bool, after: Snapshot)
  {
    match e
    case PodUpserted(pod) =>
      ok == UpsertOk(server, before, pod) && after == AfterUpsert(server, before, pod)
    case PodDeleted(pod) =>
      ok && after == before.(pods := before.pods - {pod.name})
    case PodExpired(pod, shared) =>
      ok == server.attempt(|before.reverts|, pod).ok && after == AfterRevert(server, before, pod, shared)
    case SpecChanged(spec) =>
      && (ok <==> Parses(spec.selector) && OnePolicyEach(spec.containerPolicies))
      && after == (if ok then before.(condition := spec.podCondition) else before)
  }

  ghost predicate IsTrace(server: Answers, events: seq<Event>, oks: seq<bool>, trace: seq<Snapshot>)
  {
    && |oks| == |events| && |trace| == |events| + 1
    && forall i :: 0 <= i < |events| ==> EventStep(server, trace[i], events[i], oks[i], trace[i + 1])
  }

  /** Every revert succeeded, and no update changed the number of boosted containers of a tracked pod. */
  ghost predicate Undisturbed(events: seq<Event>, oks: seq<bool>, trace: seq<Snapshot>)
    requires |oks| == |events| && |trace| == |events| + 1
  {
    forall i :: 0 <= i < |events| ==> Quiet(trace[i], events[i], oks[i])
  }

  ghost predicate Quiet(before: Snapshot, e: Event, ok: bool)
  {
    match e
    case PodUpserted(pod) =>
      && ok
      && (pod.name in before.pods ==> BoostContainersLen(pod) == BoostContainersLen(before.pods[pod.name]))
    case PodExpired(_, _) => ok
    case PodDeleted(_) => true
    case SpecChanged(_) => true
  }

  function LenAt(pods: map<string, Pod>, name: string): nat
  {
    if name in pods then BoostContainersLen(pods[name]) else 0
  }

  /** The boosted containers of a pod that the event tracks for the first time. */
  function CreatedBy(before: Snapshot, e: Event): nat
  {
    if e.PodUpserted? && e.pod.name !in before.pods then BoostContainersLen(e.pod) else 0
  }

  /** The boosted containers of the pod that the event drops. */
  function DroppedBy(before: Snapshot, e: Event, ok: bool): nat
  {
    match e
    case PodUpserted(pod) => if Met(before.condition, pod) && ok then BoostContainersLen(pod) else 0
    case PodDeleted(pod) => LenAt(before.pods, pod.name)
    case PodExpired(pod, _) => if ok then LenAt(before.pods, pod.name) else 0
    case SpecChanged(_) => 0
  }

  /** By how much the event changes the number of boosted containers of a pod's tracked copy. */
  function DriftBy(before: Snapshot, e: Event, ok: bool, after: Snapshot): int
  {
    match e
    case PodUpserted(pod) =>
      (if Met(before.condition, pod) && ok then BoostContainersLen(pod) else LenAt(after.pods, pod.name)) -
      (if pod.name in before.pods then LenAt(before.pods, pod.name) else BoostContainersLen(pod))
    case PodExpired(pod, _) => if ok then 0 else LenAt(after.pods, pod.name) - LenAt(before.pods, pod.name)
    case PodDeleted(_) => 0
    case SpecChanged(_) => 0
  }

  function Created(events: seq<Event>, trace: seq<Snapshot>): nat
    requires |trace| > |events|
  {
    if events == [] then 0
    else Created(events[..|events| - 1], trace) + CreatedBy(trace[|events| - 1], events[|events| - 1])
  }

  function Dropped(events: seq<Event>, oks: seq<bool>, trace: seq<Snapshot>): nat
    requires |trace| > |events| && |oks| >= |events|
  {
    if events == [] then 0
    else Dropped(events[..|events| - 1], oks, trace) +
         DroppedBy(trace[|events| - 1], events[|events| - 1], oks[|events| - 1])
  }

  function Drift(events: seq<Event>, oks: seq<bool>, trace: seq<Snapshot>): int
    requires |trace| > |events| && |oks| >= |events|
  {
    if events == [] then 0
    else Drift(events[..|events| - 1], oks, trace) +
         DriftBy(trace[|events| - 1], events[|events| - 1], oks[|events| - 1], trace[|events|])
  }

  /** The active counter is recounted where the tracked pods change, but not after a failed revert. */
  ghost function ActiveAfter(active: int, before: Snapshot, e: Event, ok: bool, after: Snapshot): int
  {
    match e
    case PodUpserted(pod) => Count(if ok then after.pods else before.pods[pod.name := pod])
    case PodDeleted(_) => Count(after.pods)
    case PodExpired(_, _) => if ok then Count(after.pods) else active
    case SpecChanged(_) => active
  }

  /** The active counter after a run that began with `active`. */
  ghost function Active(active: int, events: seq<Event>, oks: seq<bool>, trace: seq<Snapshot>): int
    requires |trace| > |events| && |oks| >= |events|
  {
    if events == [] then active
    else
      var n := |events| - 1;
      ActiveAfter(Active(active, events[..n], oks, trace), trace[n], events[n], oks[n], trace[n + 1])
  }

  lemma CountReplace(pods: map<string, Pod>, name: string, pod: Pod)
    requires name in pods
    ensures Count(pods[name := pod]) == Count(pods) - LenAt(pods, name) + BoostContainersLen(pod)
  {
    CountUpdate(pods, name, pod);
    CountDelete(pods, name);
  }

  /** No boosted container gets lost or appears from nowhere in one event. */
  lemma StepConserves(server: Answers, before: Snapshot, e: Event, ok: bool, after: Snapshot)
    requires EventStep(server, before, e, ok, after)
    ensures Count(after.pods) + DroppedBy(before, e, ok) ==
            Count(before.pods) + CreatedBy(before, e) + DriftBy(before, e, ok, after)
  {
    match e
    case PodUpserted(pod) =>
      CountUpdate(before.pods, pod.name, pod);
      CountUpdate(before.pods, pod.name, LocalAfter(server, |before.reverts|, pod));
      CountDelete(before.pods, pod.name);
    case PodDeleted(pod) => CountDelete(before.pods, pod.name);
    case PodExpired(pod, _) =>
      if ok {
        CountDelete(before.pods, pod.name);
      } else if after.pods != before.pods {
        CountReplace(before.pods, pod.name, after.pods[pod.name]);
      }
    case SpecChanged(_) =>
  }

  /** Conservation over any run, disturbed or not. */
  lemma {:induction false} RunConserves(server: Answers, events: seq<Event>, oks: seq<bool>, trace: seq<Snapshot>,
                                        n: nat)
    requires IsTrace(server, events, oks, trace) && n <= |events|
    ensures Count(trace[n].pods) + Dropped(events[..n], oks, trace) ==
            Count(trace[0].pods) + Created(events[..n], trace) + Drift(events[..n], oks, trace)
  {
    if n == 0 {
    } else {
      assert events[..n][..n - 1] == events[..n - 1];
      RunConserves(server, events, oks, trace, n - 1);
      StepConserves(server, trace[n - 1], events[n - 1], oks[n - 1], trace[n]);
    }
  }

  lemma QuietMeansNoDrift(server: Answers, before: Snapshot, e: Event, ok: bool, after: Snapshot)
    requires EventStep(server, before, e, ok, after) && Quiet(before, e, ok)
    ensures DriftBy(before, e, ok, after) == 0
  {
  }

  lemma {:induction false} UndisturbedMeansNoDrift(server: Answers, events: seq<Event>, oks: seq<bool>,
                                                   trace: seq<Snapshot>, n: nat)
    requires IsTrace(server, events, oks, trace) && Undisturbed(events, oks, trace) && n <= |events|
    ensures Drift(events[..n], oks, trace) == 0
  {
    if n == 0 {
    } else {
      assert events[..n][..n - 1] == events[..n - 1];
      UndisturbedMeansNoDrift(server, events, oks, trace, n - 1);
      QuietMeansNoDrift(server, trace[n - 1], events[n - 1], oks[n - 1], trace[n]);
    }
  }

  /** The active counter stays right if and only if a failed revert leaves the copy with as many boosted containers. */
  lemma CounterStep(server: Answers, before: Snapshot, e: Event, ok: bool, after: Snapshot)
    requires EventStep(server, before, e, ok, after)
    ensures ActiveAfter(Count(before.pods), before, e, ok, after) == Count(after.pods) <==>
              match e
              case PodUpserted(pod) => ok || LenAt(after.pods, pod.name) == BoostContainersLen(pod)
              case PodExpired(pod, _) => ok || LenAt(after.pods, pod.name) == LenAt(before.pods, pod.name)
              case PodDeleted(_) => true
              case SpecChanged(_) => true
  {
    match e
    case PodUpserted(pod) =>
      CountUpdate(before.pods, pod.name, pod);
      CountUpdate(before.pods, pod.name, LocalAfter(server, |before.reverts|, pod));
    case PodExpired(pod, _) =>
      if !ok && after.pods != before.pods {
        CountReplace(before.pods, pod.name, after.pods[pod.name]);
      }
    case PodDeleted(_) =>
    case SpecChanged(_) =>
  }

  /**
   The attempt succeeds, or what it leaves of the copy still has its annotation, or there
   was none. It takes the annotation off where the labels come off: in the update once the
   resources are back, and in the second patch.
   */
  predicate KeepsCounter(legacy: bool, pod: Pod, calls: Calls)
  {
    || BoostContainersLen(pod) == 0
    || (if legacy then !Usable(pod) || calls.first.Succeeds? else !calls.first.Succeeds? || calls.second.Succeeds?)
  }

  lemma KeepsCounterIff(legacy: bool, pod: Pod, server: Pod, calls: Calls)
    ensures var a := AttemptBy(legacy, pod, server, calls);
            KeepsCounter(legacy, pod, calls) <==> a.ok || BoostContainersLen(a.local) == BoostContainersLen(pod)
  {
    AttemptAnnotation(legacy, pod, server, calls);
  }

  /**
   From a right active counter an event leads to a right one if and only if it makes no
   attempt, or works on a copy that is not tracked, or the attempt is one that
   `KeepsCounter`. `server` and `calls` are what the attempt meets.
   */
  lemma CounterRightIff(a: Answers, before: Snapshot, e: Event, ok: bool, after: Snapshot, server: Pod, calls: Calls)
    requires EventStep(a, before, e, ok, after)
    requires e.PodUpserted? || e.PodExpired? ==>
               && SamePod(server, e.pod)
               && a.attempt(|before.reverts|, e.pod) == AttemptBy(a.legacy, e.pod, server, calls)
    ensures ActiveAfter(Count(before.pods), before, e, ok, after) == Count(after.pods) <==>
              match e
              case PodUpserted(pod) => !Met(before.condition, pod) || KeepsCounter(a.legacy, pod, calls)
              case PodExpired(pod, shared) =>
                || !shared || pod.name !in before.pods || before.pods[pod.name] != pod
                || KeepsCounter(a.legacy, pod, calls)
              case PodDeleted(_) => true
              case SpecChanged(_) => true
  {
    CounterStep(a, before, e, ok, after);
    if e.PodUpserted? || e.PodExpired? {
      KeepsCounterIff(a.legacy, e.pod, server, calls);
      AttemptKeepsIdentity(a.legacy, e.pod, server, calls);
    }
  }

  /** Answers of a server that always has an equal copy and ends the calls in the given way. */
  lemma AnswersWith(legacy: bool, calls: Calls) returns (a: Answers)
    ensures Faithful(a) && a.legacy == legacy
    ensures forall n, pod :: a.attempt(n, pod) == AttemptBy(legacy, pod, pod, calls)
  {
    a := Answers(legacy, (n: nat, pod: Pod) => AttemptBy(legacy, pod, pod, calls));
    forall n, pod
      ensures Answered(a, n, pod)
    {
      assert a.attempt(n, pod) == AttemptBy(a.legacy, pod, pod, calls);
    }
  }

  /**
   A boosted pod is tracked, the resize succeeds and the labels patch does not: the
   tracked copy has lost its annotation, and the active counter still counts it.
   */
  lemma HalfDoneLeavesCounterHigh(pod: Pod, calls: Calls) returns (a: Answers)
    requires BoostContainersLen(pod) > 0 && calls.first.Succeeds? && !calls.second.Succeeds?
    ensures Faithful(a) && !a.legacy && a.attempt(0, pod) == AttemptBy(false, pod, pod, calls)
    ensures var before := Snapshot(map[pod.name := pod], None, []);
            var after := AfterRevert(a, before, pod, true);
            && EventStep(a, before, PodExpired(pod, true), false, after)
            && ActiveAfter(Count(before.pods), before, PodExpired(pod, true), false, after) == BoostContainersLen(pod)
            && pod.name in after.pods && Count(after.pods) == 0
  {
    a := AnswersWith(false, calls);
    HalfDoneCounter(a, pod, calls);
  }

  lemma HalfDoneCounter(a: Answers, pod: Pod, calls: Calls)
    requires BoostContainersLen(pod) > 0 && calls.first.Succeeds? && !calls.second.Succeeds?
    requires !a.legacy && a.attempt(0, pod) == AttemptBy(false, pod, pod, calls)
    ensures var before := Snapshot(map[pod.name := pod], None, []);
            var after := AfterRevert(a, before, pod, true);
            && EventStep(a, before, PodExpired(pod, true), false, after)
            && ActiveAfter(Count(before.pods), before, PodExpired(pod, true), false, after) == BoostContainersLen(pod)
            && pod.name in after.pods && Count(after.pods) == 0
  {
    AttemptAnnotation(false, pod, pod, calls);
    StrippedLeavesCounterHigh(a, pod);
  }

  lemma StrippedLeavesCounterHigh(a: Answers, pod: Pod)
    requires !a.attempt(0, pod).ok && BoostAnnotationFromPod(a.attempt(0, pod).local).None?
    ensures var before := Snapshot(map[pod.name := pod], None, []);
            var after := AfterRevert(a, before, pod, true);
            && EventStep(a, before, PodExpired(pod, true), false, after)
            && ActiveAfter(Count(before.pods), before, PodExpired(pod, true), false, after) == BoostContainersLen(pod)
            && pod.name in after.pods && Count(after.pods) == 0
  {
    CountOne(pod.name, pod);
    CountOne(pod.name, LocalAfter(a, 0, pod));
    assert map[pod.name := pod][pod.name := LocalAfter(a, 0, pod)] == map[pod.name := LocalAfter(a, 0, pod)];
  }

  lemma CountOne(name: string, pod: Pod)
    ensures Count(map[name := pod]) == BoostContainersLen(pod)
  {
    var none: map<string, Pod> := map[];
    CountUpdate(none, name, pod);
    assert none[name := pod] == map[name := pod];
    assert none - {name} == none;
  }

  /** In an undisturbed run the active counter is always the number of boosted containers of the tracked pods. */
  lemma {:induction false} UndisturbedCountsActive(server: Answers, events: seq<Event>, oks: seq<bool>,
                                                   trace: seq<Snapshot>, n: nat)
    requires IsTrace(server, events, oks, trace) && Undisturbed(events, oks, trace) && n <= |events|
    ensures Active(Count(trace[0].pods), events[..n], oks, trace) == Count(trace[n].pods)
  {
    if n == 0 {
    } else {
      assert events[..n][..n - 1] == events[..n - 1];
      UndisturbedCountsActive(server, events, oks, trace, n - 1);
      assert EventStep(server, trace[n - 1], events[n - 1], oks[n - 1], trace[n]);
      assert Quiet(trace[n - 1], events[n - 1], oks[n - 1]);
    }
  }

  ghost function Seen(b: StartupCpuBoost): Snapshot
    reads b
  {
    Snapshot(b.pods, b.podCondition, b.reverts)
  }

  /** One event on a boost. */
  method HandleEvent(b: StartupCpuBoost, e: Event) returns (ok: bool)
    modifies b
    ensures EventStep(b.server, old(Seen(b)), e, ok, Seen(b))
    ensures b.totalContainerBoosts == old(b.totalContainerBoosts) + CreatedBy(old(Seen(b)), e)
    ensures b.activeContainerBoosts == ActiveAfter(old(b.activeContainerBoosts), old(Seen(b)), e, ok, Seen(b))
  {
    match e
    case PodUpserted(pod) =>
      ok := b.UpsertPod(pod);
    case PodDeleted(pod) =>
      b.DeletePod(pod);
      ok := true;
    case PodExpired(pod, shared) =>
      ok := b.RevertResources(pod, shared);
    case SpecChanged(spec) =>
      ok := b.UpdateFromSpec(spec);
  }

  /**
   Any run of events on one boost. The total counts what was ever tracked. It is what
   is tracked now plus what was dropped, up to the drift of tracked copies; in an
   undisturbed run there is no drift, and the active counter is what is tracked.
   */
  method RunEvents(b: StartupCpuBoost, events: seq<Event>) returns (oks: seq<bool>, ghost trace: seq<Snapshot>)
    modifies b
    ensures IsTrace(b.server, events, oks, trace) && trace[0] == old(Seen(b)) && trace[|events|] == Seen(b)
    ensures b.totalContainerBoosts == old(b.totalContainerBoosts) + Created(events, trace)
    ensures b.activeContainerBoosts == Active(old(b.activeContainerBoosts), events, oks, trace)
    ensures b.totalContainerBoosts + Drift(events, oks, trace) - old(b.totalContainerBoosts) ==
            Count(b.pods) - old(Count(b.pods)) + Dropped(events, oks, trace)
    ensures Undisturbed(events, oks, trace) && old(b.activeContainerBoosts == Count(b.pods)) ==>
              && b.activeContainerBoosts == Count(b.pods)
              && b.totalContainerBoosts - old(b.totalContainerBoosts) ==
                 b.activeContainerBoosts - old(b.activeContainerBoosts) + Dropped(events, oks, trace)
  {
    oks, trace := [], [Seen(b)];
    for n := 0 to |events|
      invariant IsTrace(b.server, events[..n], oks, trace) && trace[0] == old(Seen(b)) && trace[n] == Seen(b)
      invariant b.totalContainerBoosts == old(b.totalContainerBoosts) + Created(events[..n], trace)
      invariant b.activeContainerBoosts == Active(old(b.activeContainerBoosts), events[..n], oks, trace)
    {
      var ok := HandleEvent(b, events[n]);
      LongerRun(b.server, events, n, oks, trace, ok, Seen(b), old(b.activeContainerBoosts));
      oks, trace := oks + [ok], trace + [Seen(b)];
    }
    assert events[..|events|] == events;
    RunConserves(b.server, events, oks, trace, |events|);
    if Undisturbed(events, oks, trace) && old(b.activeContainerBoosts == Count(b.pods)) {
      UndisturbedMeansNoDrift(b.server, events, oks, trace, |events|);
      UndisturbedCountsActive(b.server, events, oks, trace, |events|);
    }
  }

  lemma {:induction false} CreatedIgnoresLater(events: seq<Event>, trace: seq<Snapshot>, more: seq<Snapshot>)
    requires |trace| > |events|
    ensures Created(events, trace + more) == Created(events, trace)
  {
    if events == [] {
    } else {
      CreatedIgnoresLater(events[..|events| - 1], trace, more);
    }
  }

  lemma LongerTrace(server: Answers, events: seq<Event>, n: nat, oks: seq<bool>, trace: seq<Snapshot>,
                    ok: bool, now: Snapshot)
    requires n < |events| && IsTrace(server, events[..n], oks, trace) && EventStep(server, trace[n], events[n], ok, now)
    ensures IsTrace(server, events[..n + 1], oks + [ok], trace + [now])
    ensures Created(events[..n + 1], trace + [now]) == Created(events[..n], trace) + CreatedBy(trace[n], events[n])
  {
    var events', oks', trace' := events[..n + 1], oks + [ok], trace + [now];
    forall i | 0 <= i < n + 1
      ensures EventStep(server, trace'[i], events'[i], oks'[i], trace'[i + 1])
    {
      if i < n {
        assert EventStep(server, trace[i], events[..n][i], oks[i], trace[i + 1]);
      }
    }
    assert events'[..n] == events[..n];
    CreatedIgnoresLater(events[..n], trace, [now]);
  }

  lemma {:induction false} ActiveIgnoresLater(active: int, events: seq<Event>, oks: seq<bool>, trace: seq<Snapshot>,
                                              ok: bool, now: Snapshot)
    requires |trace| > |events| && |oks| >= |events|
    ensures Active(active, events, oks + [ok], trace + [now]) == Active(active, events, oks, trace)
  {
    if events == [] {
    } else {
      ActiveIgnoresLater(active, events[..|events| - 1], oks, trace, ok, now);
    }
  }

  lemma LongerRun(server: Answers, events: seq<Event>, n: nat, oks: seq<bool>, trace: seq<Snapshot>,
                  ok: bool, now: Snapshot, active: int)
    requires n < |events| && IsTrace(server, events[..n], oks, trace) && EventStep(server, trace[n], events[n], ok, now)
    ensures IsTrace(server, events[..n + 1], oks + [ok], trace + [now])
    ensures Created(events[..n + 1], trace + [now]) == Created(events[..n], trace) + CreatedBy(trace[n], events[n])
    ensures Active(active, events[..n + 1], oks + [ok], trace + [now]) ==
            ActiveAfter(Active(active, events[..n], oks, trace), trace[n], events[n], ok, now)
  {
    LongerTrace(server, events, n, oks, trace, ok, now);
    assert events[..n + 1][..n] == events[..n];
    ActiveIgnoresLater(active, events[..n], oks, trace, ok, now);
  }
}
