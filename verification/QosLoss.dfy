/**
 Exactly when boosting changes the class of a pod.

 The class is checked before the CPU limit is dropped. A pod whose only positive
 amounts are CPU limits, all of which get dropped, ends as best effort.
 */
module QosLoss {
  import opened Wrappers
  import opened Quantities
  import opened Pods
  import opened Policies
  import opened Qos
  import opened Admission
  import opened AdmissionProofs

  /** Nothing positive except perhaps the CPU limit. */
  predicate OnlyCpuLimit(r: Resources)
  {
    Counted(r.requests, CPU) == 0.0 && Counted(r.requests, MEMORY) == 0.0 && Counted(r.limits, MEMORY) == 0.0
  }

  /** The webhook considers the container, and its policy does not give it a CPU request. */
  predicate BoostedWithoutRequest(b: Boost, c: Container)
  {
    var policy := ResourcePolicy(b.policies, c.name);
    && policy.Some?
    && !ResizeRequiresRestart(c.resizePolicy, CPU)
    && Counted(NewResources(policy.value, c.resources).requests, CPU) == 0.0
  }

  predicate Doomed(b: Boost, c: Container)
  {
    OnlyCpuLimit(c.resources) && (Counted(c.resources.limits, CPU) > 0.0 ==> BoostedWithoutRequest(b, c))
  }

  predicate LosesClass(h: Webhook, b: Boost, p: Pod)
  {
    && h.removeLimits
    && ByContainers(h, p)
    && PodClass(p, h.podLevel) == Burstable
    && (forall j :: 0 <= j < |p.initContainers| ==> !AnyPositive(p.initContainers[j].resources))
    && (forall j :: 0 <= j < |p.containers| ==> Doomed(b, p.containers[j]))
  }

  ghost predicate AllRaise(b: Boost)
  {
    forall name :: name in b.policies ==> Raises(b.policies[name])
  }

  // ---------------------------------------------------------------------------
  // Such a pod does lose its class
  // ---------------------------------------------------------------------------

  lemma DoomedContainer(h: Webhook, b: Boost, p: Pod, i: nat)
    requires AllRaise(b) && h.removeLimits && ByContainers(h, p)
    requires i < |p.containers| && Doomed(b, p.containers[i])
    requires NonNegativeContainer(p.containers[i])
    ensures match Decide(h, b, Burstable, p, i)
            case None => !AnyPositive(p.containers[i].resources)
            case Some(r) => !AnyPositive(r)
  {
    var c := p.containers[i];
    if Counted(c.resources.limits, CPU) > 0.0 {
      var policy := ResourcePolicy(b.policies, c.name).value;
      var r := NewResources(policy, c.resources);
      RaisesCpu(policy, c.resources);
      NewResourcesTouchesOnlyCpu(policy, c.resources);
      InputsWithResources(h, p, i, r);
      var rs := QosInputs(WithResources(p, i, r), h.podLevel);
      assert rs[i] == r && AnyPositive(rs[i]) && !Limited(rs[i]);
      assert Decide(h, b, Burstable, p, i) == Some(DropLimit(h, Burstable, r));
    }
  }

  /** The containers before `i` have lost everything, and the others are going to. */
  ghost predicate Losing(h: Webhook, b: Boost, p: Pod, i: nat)
  {
    && h.removeLimits && ByContainers(h, p)
    && (forall j :: 0 <= j < |p.initContainers| ==> !AnyPositive(p.initContainers[j].resources))
    && (forall j :: 0 <= j < i && j < |p.containers| ==> !AnyPositive(p.containers[j].resources))
    && (forall j :: i <= j < |p.containers| ==> Doomed(b, p.containers[j]) && NonNegativeContainer(p.containers[j]))
  }

  lemma LostEverything(h: Webhook, b: Boost, p: Pod)
    requires Losing(h, b, p, |p.containers|)
    ensures PodClass(p, h.podLevel) == BestEffort
  {
    assert NonePositive(QosInputs(p, h.podLevel));
  }

  lemma LosingStep(h: Webhook, b: Boost, p: Pod, a: BoostAnnotation, i: nat)
    requires AllRaise(b) && Losing(h, b, p, i) && i < |p.containers|
    ensures Losing(h, b, BoostStep(h, b, Burstable, p, a, i).0, i + 1)
  {
    DoomedContainer(h, b, p, i);
    var q := BoostStep(h, b, Burstable, p, a, i).0;
    assert !AnyPositive(q.containers[i].resources);
    assert forall j :: 0 <= j < |p.containers| && j != i ==> q.containers[j] == p.containers[j];
  }

  lemma DoomedLoop(h: Webhook, b: Boost, p: Pod, now: int)
    requires AllRaise(b) && Losing(h, b, p, 0) && PodClass(p, h.podLevel) == Burstable
    ensures PodClass(Loop(h, b, p, now).0, h.podLevel) == BestEffort
  {
    var inv: LoopInvariant := (q, a, i: nat) => Losing(h, b, q, i);
    forall q: Pod, a: BoostAnnotation, i: nat | i < |q.containers| && inv(q, a, i)
      ensures var next := BoostStep(h, b, Burstable, q, a, i);
              inv(next.0, next.1, i + 1)
    {
      LosingStep(h, b, q, a, i);
    }
    LoopKeeps(h, b, Burstable, inv, p, NewAnnotation(now), 0);
    LostEverything(h, b, Loop(h, b, p, now).0);
  }

  // ---------------------------------------------------------------------------
  // No other pod does
  // ---------------------------------------------------------------------------

  /** What survives of a container: everything but its CPU limit keeps being positive. */
  predicate Survives(b: Boost, c0: Container, c: Container)
  {
    && (OnlyCpuLimit(c.resources) ==> OnlyCpuLimit(c0.resources))
    && (!AnyPositive(c.resources) && Counted(c0.resources.limits, CPU) > 0.0 ==> BoostedWithoutRequest(b, c0))
  }

  lemma SurvivesStep(h: Webhook, b: Boost, qos: QosClass, p: Pod, i: nat)
    requires AllRaise(b) && i < |p.containers| && NonNegativeContainer(p.containers[i])
    ensures match Decide(h, b, qos, p, i)
            case None => Survives(b, p.containers[i], p.containers[i])
            case Some(r) => Survives(b, p.containers[i], p.containers[i].(resources := r))
  {
    var c := p.containers[i];
    if Decide(h, b, qos, p, i).Some? {
      var policy := ResourcePolicy(b.policies, c.name).value;
      RaisesCpu(policy, c.resources);
      NewResourcesTouchesOnlyCpu(policy, c.resources);
    }
  }

  /** After each step the pod has its class, or has lost everything. */
  predicate KeptOrEmpty(h: Webhook, qos: QosClass, p: Pod)
  {
    || PodClass(p, h.podLevel) == qos
    || (h.removeLimits && ByContainers(h, p) && qos == Burstable && NonePositive(QosInputs(p, h.podLevel)))
  }

  lemma KeptOrEmptyStep(h: Webhook, b: Boost, qos: QosClass, p: Pod, i: nat)
    requires i < |p.containers|
    ensures Decide(h, b, qos, p, i).Some? ==>
              KeptOrEmpty(h, qos, WithResources(p, i, Decide(h, b, qos, p, i).value))
  {
    var decision := Decide(h, b, qos, p, i);
    if decision.Some? {
      var c := p.containers[i];
      var r := NewResources(ResourcePolicy(b.policies, c.name).value, c.resources);
      InputsWithResources(h, p, i, r);
      InputsWithResources(h, p, i, decision.value);
      if ByContainers(h, p) && decision.value != r {
        var rs := QosInputs(p, h.podLevel);
        DropAndClass(rs, i, r);
        assert qos == BestEffort ==> !AnyPositive(rs[i := r][i]);
      }
    }
  }

  lemma KeptLoop(h: Webhook, b: Boost, p: Pod, now: int)
    ensures KeptOrEmpty(h, PodClass(p, h.podLevel), Loop(h, b, p, now).0)
  {
    var qos := PodClass(p, h.podLevel);
    var inv: LoopInvariant := (q, a, i: nat) => KeptOrEmpty(h, qos, q);
    forall q: Pod, a: BoostAnnotation, i: nat | i < |q.containers| && inv(q, a, i)
      ensures var next := BoostStep(h, b, qos, q, a, i);
              inv(next.0, next.1, i + 1)
    {
      KeptOrEmptyStep(h, b, qos, q, i);
    }
    LoopKeeps(h, b, qos, inv, p, NewAnnotation(now), 0);
  }

  /** The state of the loop before container `i`, compared with the pod it started from. */
  ghost predicate Surviving(b: Boost, p0: Pod, p: Pod, i: nat)
  {
    && i <= |p.containers| == |p0.containers|
    && p == p0.(containers := p.containers)
    && (forall j :: i <= j < |p.containers| ==> p.containers[j] == p0.containers[j])
    && (forall j :: i <= j < |p.containers| ==> NonNegativeContainer(p.containers[j]))
    && (forall j :: 0 <= j < i ==> Survives(b, p0.containers[j], p.containers[j]))
  }

  lemma SurvivingStep(h: Webhook, b: Boost, qos: QosClass, p0: Pod, p: Pod, a: BoostAnnotation, i: nat)
    requires AllRaise(b) && Surviving(b, p0, p, i) && i < |p.containers|
    ensures Surviving(b, p0, BoostStep(h, b, qos, p, a, i).0, i + 1)
  {
    SurvivesStep(h, b, qos, p, i);
  }

  lemma SurvivesLoop(h: Webhook, b: Boost, p: Pod, now: int)
    requires AllRaise(b)
    requires forall j :: 0 <= j < |p.containers| ==> NonNegativeContainer(p.containers[j])
    ensures Surviving(b, p, Loop(h, b, p, now).0, |p.containers|)
  {
    var qos := PodClass(p, h.podLevel);
    var inv: LoopInvariant := (q, a, i: nat) => Surviving(b, p, q, i);
    forall q: Pod, a: BoostAnnotation, i: nat | i < |q.containers| && inv(q, a, i)
      ensures var next := BoostStep(h, b, qos, q, a, i);
              inv(next.0, next.1, i + 1)
    {
      SurvivingStep(h, b, qos, p, q, a, i);
    }
    LoopKeeps(h, b, qos, inv, p, NewAnnotation(now), 0);
  }

  lemma EmptyMeansDoomed(h: Webhook, b: Boost, p0: Pod, q: Pod)
    requires ByContainers(h, p0) && Surviving(b, p0, q, |p0.containers|)
    requires NonePositive(QosInputs(q, h.podLevel))
    ensures forall j :: 0 <= j < |p0.initContainers| ==> !AnyPositive(p0.initContainers[j].resources)
    ensures forall j :: 0 <= j < |p0.containers| ==> Doomed(b, p0.containers[j])
  {
    var rs := QosInputs(q, h.podLevel);
    forall j | 0 <= j < |p0.initContainers|
      ensures !AnyPositive(p0.initContainers[j].resources)
    {
      assert !AnyPositive(rs[|q.containers| + j]);
    }
    forall j | 0 <= j < |p0.containers|
      ensures Doomed(b, p0.containers[j])
    {
      assert !AnyPositive(rs[j]);
    }
  }

  /**
   For policies that only raise amounts, boosting keeps the class of a pod exactly
   when the pod is not one of those described by `LosesClass`.
   */
  lemma ClassKeptIff(h: Webhook, b: Boost, p: Pod, now: int)
    requires AllRaise(b)
    requires forall j :: 0 <= j < |p.containers| ==> NonNegativeContainer(p.containers[j])
    ensures PodClass(Boosted(h, b, p, now), h.podLevel) == PodClass(p, h.podLevel) <==> !LosesClass(h, b, p)
    ensures LosesClass(h, b, p) ==> PodClass(Boosted(h, b, p, now), h.podLevel) == BestEffort
  {
    var (q, a) := Loop(h, b, p, now);
    MarkKeepsClass(h, q, a, b.name);
    if LosesClass(h, b, p) {
      DoomedLoop(h, b, p, now);
    } else {
      SurvivesLoop(h, b, p, now);
      KeptLoop(h, b, p, now);
      if PodClass(q, h.podLevel) != PodClass(p, h.podLevel) {
        EmptyMeansDoomed(h, b, p, q);
      }
    }
  }

  /** A pod with one container that has a CPU limit and nothing else. */
  function LimitOnlyPod(container: string, limit: Quantity): Pod
  {
    Pod("pod", "namespace", map[], map[],
        [Container(container, Resources(map[], map[CPU := limit]), [])], [], None, [])
  }

  /** Under a wildcard policy such a pod goes from burstable to best effort. */
  lemma ClassCanBeLost(h: Webhook, policy: Policy, container: string, limit: Quantity, now: int)
    requires h.removeLimits && Raises(policy) && limit > 0.0
    ensures var p, b := LimitOnlyPod(container, limit), Boost("boost", map[WILDCARD := policy]);
            && PodClass(p, h.podLevel) == Burstable
            && PodClass(Boosted(h, b, p, now), h.podLevel) == BestEffort
  {
    var p, b := LimitOnlyPod(container, limit), Boost("boost", map[WILDCARD := policy]);
    var rs := QosInputs(p, h.podLevel);
    assert rs[0] == p.containers[0].resources && AnyPositive(rs[0]) && !Limited(rs[0]);
    assert Doomed(b, p.containers[0]);
    ClassKeptIff(h, b, p, now);
  }
}
