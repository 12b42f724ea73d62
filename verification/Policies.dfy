/**
 Resource policies: what a boosted container is given.
 */
module Policies {
  import opened Wrappers
  import opened Quantities
  import opened Pods

  const WILDCARD := "*"

  datatype Policy =
    | Percentage(percentage: Int64)
    | Fixed(cpuRequests: Quantity, cpuLimits: Quantity)

  /** The policy of a container: its own, or else the wildcard one. */
  function ResourcePolicy(policies: map<string, Policy>, container: string): Option<Policy>
  {
    if container in policies then Some(policies[container])
    else if WILDCARD in policies then Some(policies[WILDCARD])
    else None
  }

  function IncreaseResource(list: ResourceList, percentage: Int64): ResourceList
  {
    if CPU in list then list[CPU := IncreaseQuantity(list[CPU], percentage)] else list
  }

  function SetResource(list: ResourceList, target: Quantity): ResourceList
  {
    if target == 0.0 || CPU !in list || target < list[CPU] then list
    else list[CPU := target]
  }

  function NewResources(policy: Policy, r: Resources): Resources
  {
    match policy
    case Percentage(p) =>
      Resources(IncreaseResource(r.requests, p), IncreaseResource(r.limits, p))
    case Fixed(requests, limits) =>
      Resources(SetResource(r.requests, requests), SetResource(r.limits, limits))
  }

  /** Policies that can only raise amounts. */
  predicate Raises(policy: Policy)
  {
    policy.Percentage? ==> InRange(policy.percentage)
  }

  /** Policies that keep a request at or below its limit. */
  predicate KeepsOrder(policy: Policy)
  {
    match policy
    case Percentage(p) => InRange(p)
    case Fixed(requests, limits) => requests <= limits
  }

  ghost predicate SameButCpu(a: ResourceList, b: ResourceList)
  {
    && a.Keys == b.Keys
    && forall k :: k in a && k != CPU ==> a[k] == b[k]
  }

  /** A policy touches nothing but the CPU entries that are already there. */
  lemma NewResourcesTouchesOnlyCpu(policy: Policy, r: Resources)
    ensures SameButCpu(r.requests, NewResources(policy, r).requests)
    ensures SameButCpu(r.limits, NewResources(policy, r).limits)
  {
  }

  /** The fixed policy is a maximum, taken on the entries that are there. */
  lemma FixedIsMaximum(list: ResourceList, target: Quantity)
    requires NonNegative(list)
    requires target >= 0.0 && CPU in list
    ensures SetResource(list, target)[CPU] == if target >= list[CPU] then target else list[CPU]
  {
  }

  lemma RaisesCpu(policy: Policy, r: Resources)
    requires NonNegative(r.requests) && NonNegative(r.limits) && Raises(policy)
    ensures Amount(r.requests, CPU) <= Amount(NewResources(policy, r).requests, CPU)
    ensures Amount(r.limits, CPU) <= Amount(NewResources(policy, r).limits, CPU)
  {
    if policy.Percentage? {
      IncreaseAtLeast(Amount(r.requests, CPU), policy.percentage);
      IncreaseAtLeast(Amount(r.limits, CPU), policy.percentage);
    }
  }

  /**
   Valid resources stay valid: a request at or below its limit stays there under
   every percentage, and under every fixed pair whose request is at most its limit.
   */
  lemma NewResourcesStayValid(policy: Policy, r: Resources)
    requires ValidResources(r) && KeepsOrder(policy)
    ensures ValidResources(NewResources(policy, r))
  {
    var r' := NewResources(policy, r);
    RaisesCpu(policy, r);
    if CPU in r.limits && CPU in r.requests {
      if policy.Percentage? {
        IncreaseIsMonotone(r.requests[CPU], r.limits[CPU], policy.percentage, policy.percentage);
      }
    }
    forall k | k in r'.limits
      ensures Amount(r'.requests, k) <= r'.limits[k]
    {
      if k != CPU {
        assert Amount(r'.requests, k) == Amount(r.requests, k);
      }
    }
  }

  /**
   A fixed policy keeps every valid container valid exactly when its request is at
   most its limit. In particular a policy that leaves its limit out, which counts
   as zero, can push a request above the container's own limit.
   */
  lemma FixedStaysValidIff(requests: Quantity, limits: Quantity)
    requires requests >= 0.0 && limits >= 0.0
    ensures (forall r :: ValidResources(r) ==> ValidResources(NewResources(Fixed(requests, limits), r)))
            <==> requests <= limits
  {
    if requests <= limits {
      forall r | ValidResources(r)
        ensures ValidResources(NewResources(Fixed(requests, limits), r))
      {
        NewResourcesStayValid(Fixed(requests, limits), r);
      }
    } else {
      var limit := if limits > 0.0 then limits else requests / 2.0;
      var r := Resources(map[CPU := 0.0], map[CPU := limit]);
      assert ValidResources(r);
      var r' := NewResources(Fixed(requests, limits), r);
      assert r'.limits[CPU] == limit && Amount(r'.requests, CPU) == requests;
      assert !ValidResources(r');
    }
  }
}
