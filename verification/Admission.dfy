/**
 Boosting a pod at admission.

 The loop raises the CPU of one container after the other, skips a container whose
 boost would change the pod's class, may drop CPU limits, and keeps the original
 values in an annotation.
 */
module Admission {
  import opened Wrappers
  import opened Pods
  import opened Policies
  import opened Qos

  datatype Webhook = Webhook(removeLimits: bool, podLevel: bool)

  datatype Boost = Boost(name: string, policies: map<string, Policy>)

  predicate CanRemoveLimit(h: Webhook, qos: QosClass)
  {
    h.removeLimits && qos != Guaranteed
  }

  /** Rule `i` is the first one for the resource. */
  predicate FirstRule(rules: seq<ResizeRule>, resource: string, i: nat)
  {
    i < |rules| && rules[i].resource == resource && forall j :: 0 <= j < i ==> rules[j].resource != resource
  }

  function ResizeRequiresRestart(rules: seq<ResizeRule>, resource: string): bool
  {
    if rules == [] then false
    else if rules[0].resource != resource then ResizeRequiresRestart(rules[1..], resource)
    else rules[0].restartContainer
  }

  predicate HasResourcesToIncrease(c: Container)
  {
    Amount(c.resources.requests, CPU) != 0.0 || Amount(c.resources.limits, CPU) != 0.0
  }

  function WithResources(p: Pod, i: nat, r: Resources): Pod
    requires i < |p.containers|
  {
    p.(containers := p.containers[i := p.containers[i].(resources := r)])
  }

  function DropLimit(h: Webhook, qos: QosClass, r: Resources): Resources
  {
    if Amount(r.limits, CPU) != 0.0 && CanRemoveLimit(h, qos) then r.(limits := r.limits - {CPU}) else r
  }

  /** The resources container `i` is given, or nothing if it is skipped. */
  function Decide(h: Webhook, b: Boost, qos: QosClass, p: Pod, i: nat): Option<Resources>
    requires i < |p.containers|
  {
    var c := p.containers[i];
    var policy := ResourcePolicy(b.policies, c.name);
    if policy.None? || ResizeRequiresRestart(c.resizePolicy, CPU) || !HasResourcesToIncrease(c) then None
    else
      var r := NewResources(policy.value, c.resources);
      if PodClass(WithResources(p, i, r), h.podLevel) != qos then None
      else Some(DropLimit(h, qos, r))
  }

  function KeepOriginal(a: BoostAnnotation, c: Container): BoostAnnotation
  {
    a.(initCpuRequests := KeepCpu(a.initCpuRequests, c.name, c.resources.requests),
       initCpuLimits := KeepCpu(a.initCpuLimits, c.name, c.resources.limits))
  }

  function KeepCpu(kept: map<string, QuantityText>, name: string, list: ResourceList): map<string, QuantityText>
  {
    if CPU in list then kept[name := Printed(list[CPU])] else kept
  }

  /** One turn of the loop. */
  function BoostStep(h: Webhook, b: Boost, qos: QosClass, p: Pod, a: BoostAnnotation,
                     i: nat): (r: (Pod, BoostAnnotation))
    requires i < |p.containers|
    ensures |r.0.containers| == |p.containers|
  {
    match Decide(h, b, qos, p, i)
    case None => (p, a)
    case Some(r) => (WithResources(p, i, r), KeepOriginal(a, p.containers[i]))
  }

  /** The pod and the annotation after the loop has run from container `i`. */
  function BoostFrom(h: Webhook, b: Boost, qos: QosClass, p: Pod, a: BoostAnnotation, i: nat)
      : (Pod, BoostAnnotation)
    requires i <= |p.containers|
    decreases |p.containers| - i
  {
    if i == |p.containers| then (p, a)
    else
      var next := BoostStep(h, b, qos, p, a, i);
      BoostFrom(h, b, qos, next.0, next.1, i + 1)
  }

  function NewAnnotation(now: int): BoostAnnotation
  {
    BoostAnnotation(now, map[], map[])
  }

  predicate IsEmpty(a: BoostAnnotation)
  {
    a.initCpuRequests == map[] && a.initCpuLimits == map[]
  }

  function Loop(h: Webhook, b: Boost, p: Pod, now: int): (Pod, BoostAnnotation)
  {
    BoostFrom(h, b, PodClass(p, h.podLevel), p, NewAnnotation(now), 0)
  }

  function MarkBoosted(p: Pod, a: BoostAnnotation, boost: string): Pod
  {
    if IsEmpty(a) then p
    else p.(annotations := p.annotations[BOOST_KEY := BoostJson(a)], labels := p.labels[BOOST_KEY := boost])
  }

  /** The pod that leaves the webhook. */
  function Boosted(h: Webhook, b: Boost, p: Pod, now: int): Pod
  {
    var (q, a) := Loop(h, b, p, now);
    MarkBoosted(q, a, b.name)
  }

  predicate WasBoosted(h: Webhook, b: Boost, p: Pod, now: int)
  {
    !IsEmpty(Loop(h, b, p, now).1)
  }

  method RequiresRestart(rules: seq<ResizeRule>, resource: string) returns (r: bool)
    ensures r <==> exists i: nat :: FirstRule(rules, resource, i) && rules[i].restartContainer
    ensures r == ResizeRequiresRestart(rules, resource)
  {
    for i := 0 to |rules|
      invariant ResizeRequiresRestart(rules, resource) == ResizeRequiresRestart(rules[i..], resource)
      invariant forall j :: 0 <= j < i ==> rules[j].resource != resource
    {
      if rules[i].resource == resource {
        assert FirstRule(rules, resource, i);
        return rules[i].restartContainer;
      }
    }
    return false;
  }

  method ContainerResizeChangesQosClass(h: Webhook, qos: QosClass, p: Pod, i: nat, r: Resources)
      returns (changes: bool)
    requires i < |p.containers|
    ensures changes <==> PodClass(WithResources(p, i, r), h.podLevel) != qos
  {
    var copy := WithResources(p, i, r);
    var newClass := ComputePodQos(copy, h.podLevel);
    return newClass != qos;
  }

  /** Boosts container `i` unless there is a reason to skip it. */
  method BoostContainer(h: Webhook, b: Boost, qos: QosClass, obj: PodObject, a: BoostAnnotation, i: nat)
      returns (a': BoostAnnotation)
    requires i < |obj.containers|
    modifies obj`containers
    ensures (obj.Value(), a') == BoostStep(h, b, qos, old(obj.Value()), a, i)
  {
    a' := a;
    var c := obj.containers[i];
    var policy := ResourcePolicy(b.policies, c.name);
    if policy.None? {
      return;
    }
    var restart := RequiresRestart(c.resizePolicy, CPU);
    if restart || !HasResourcesToIncrease(c) {
      return;
    }
    var r := NewResources(policy.value, c.resources);
    var changes := ContainerResizeChangesQosClass(h, qos, obj.Value(), i, r);
    if changes {
      return;
    }
    if Amount(r.limits, CPU) != 0.0 && CanRemoveLimit(h, qos) {
      r := r.(limits := r.limits - {CPU});
    }
    a' := KeepOriginal(a, c);
    obj.containers := obj.containers[i := c.(resources := r)];
  }

  method BoostContainerResources(h: Webhook, b: Boost, obj: PodObject, now: int)
    modifies obj`containers, obj`labels, obj`annotations
    ensures obj.Value() == Boosted(h, b, old(obj.Value()), now)
  {
    var qos := ComputePodQos(obj.Value(), h.podLevel);
    var annotation := NewAnnotation(now);
    var i := 0;
    while i < |obj.containers|
      invariant 0 <= i <= |obj.containers|
      invariant Loop(h, b, old(obj.Value()), now) == BoostFrom(h, b, qos, obj.Value(), annotation, i)
      decreases |obj.containers| - i
    {
      annotation := BoostContainer(h, b, qos, obj, annotation, i);
      i := i + 1;
    }
    if |annotation.initCpuLimits| > 0 || |annotation.initCpuRequests| > 0 {
      obj.annotations := obj.annotations[BOOST_KEY := BoostJson(annotation)];
      obj.labels := obj.labels[BOOST_KEY := b.name];
    }
  }
}
