/**
 The quality-of-service class of a pod.

 `ComputePodQos` runs the source's accumulation over resource maps. `PodClass` says
 what it computes in terms of totals, and the lemmas below relate the totals to the
 per-container definition of the three classes.
 */
module Qos {
  import opened Quantities
  import opened Pods

  datatype QosClass = BestEffort | Burstable | Guaranteed

  predicate Supported(name: string)
  {
    name == CPU || name == MEMORY
  }

  /** The part of an entry that counts: a positive amount of CPU or memory. */
  function Counted(list: ResourceList, name: string): (q: Quantity)
    ensures q >= 0.0
  {
    if Supported(name) && name in list && list[name] > 0.0 then list[name] else 0.0
  }

  function TotalRequests(rs: seq<Resources>, name: string): (q: Quantity)
    ensures q >= 0.0
  {
    if rs == [] then 0.0
    else TotalRequests(rs[..|rs| - 1], name) + Counted(rs[|rs| - 1].requests, name)
  }

  function TotalLimits(rs: seq<Resources>, name: string): (q: Quantity)
    ensures q >= 0.0
  {
    if rs == [] then 0.0
    else TotalLimits(rs[..|rs| - 1], name) + Counted(rs[|rs| - 1].limits, name)
  }

  /** Positive CPU and memory limits. */
  predicate Limited(r: Resources)
  {
    Counted(r.limits, CPU) > 0.0 && Counted(r.limits, MEMORY) > 0.0
  }

  predicate AnyPositive(r: Resources)
  {
    || Counted(r.requests, CPU) > 0.0
    || Counted(r.requests, MEMORY) > 0.0
    || Counted(r.limits, CPU) > 0.0
    || Counted(r.limits, MEMORY) > 0.0
  }

  predicate NonePositive(rs: seq<Resources>)
  {
    forall i :: 0 <= i < |rs| ==> !AnyPositive(rs[i])
  }

  predicate AllLimited(rs: seq<Resources>)
  {
    forall i :: 0 <= i < |rs| ==> Limited(rs[i])
  }

  function AggregateClass(rs: seq<Resources>): QosClass
  {
    if NonePositive(rs) then BestEffort
    else if && AllLimited(rs)
            && TotalRequests(rs, CPU) == TotalLimits(rs, CPU)
            && TotalRequests(rs, MEMORY) == TotalLimits(rs, MEMORY)
    then Guaranteed
    else Burstable
  }

  function ContainerResources(cs: seq<Container>): (rs: seq<Resources>)
    ensures |rs| == |cs|
    ensures forall i :: 0 <= i < |cs| ==> rs[i] == cs[i].resources
  {
    seq(|cs|, i requires 0 <= i < |cs| => cs[i].resources)
  }

  /** The resources the class is computed from. */
  function QosInputs(p: Pod, podLevel: bool): seq<Resources>
  {
    if podLevel && p.podResources.Some? then [p.podResources.value]
    else ContainerResources(p.containers + p.initContainers)
  }

  function PodClass(p: Pod, podLevel: bool): QosClass
  {
    AggregateClass(QosInputs(p, podLevel))
  }

  // ---------------------------------------------------------------------------
  // The source's computation
  // ---------------------------------------------------------------------------

  /** `requests` holds exactly the positive totals of requests. */
  ghost predicate HoldsRequests(requests: ResourceList, rs: seq<Resources>)
  {
    forall k ::
      && (k in requests <==> TotalRequests(rs, k) > 0.0)
      && (k in requests ==> requests[k] == TotalRequests(rs, k))
  }

  ghost predicate HoldsLimits(limits: ResourceList, rs: seq<Resources>)
  {
    forall k :: (k in limits <==> TotalLimits(rs, k) > 0.0) && (k in limits ==> limits[k] == TotalLimits(rs, k))
  }

  /** `sum` adds what counts in `newList` to `list`. */
  ghost predicate AddsCounted(list: ResourceList, newList: ResourceList, sum: ResourceList)
  {
    && (forall k :: k in sum <==> k in list || Counted(newList, k) > 0.0)
    && (forall k :: k in sum ==> sum[k] == Amount(list, k) + Counted(newList, k))
  }

  method ProcessResourceList(list: ResourceList, newList: ResourceList) returns (r: ResourceList)
    ensures AddsCounted(list, newList, r)
  {
    r := list;
    var names := newList.Keys;
    while names != {}
      invariant names <= newList.Keys
      invariant forall k :: k in r <==> k in list || (k !in names && Counted(newList, k) > 0.0)
      invariant forall k :: k in r ==>
                  r[k] == Amount(list, k) + (if k in names then 0.0 else Counted(newList, k))
    {
      var name :| name in names;
      names := names - {name};
      if Supported(name) && newList[name] > 0.0 {
        if name !in r {
          r := r[name := newList[name]];
        } else {
          r := r[name := newList[name] + r[name]];
        }
      }
    }
  }

  method GetQosResources(list: ResourceList) returns (found: set<string>)
    ensures found == set k | k in list && Counted(list, k) > 0.0
  {
    found := {};
    var names := list.Keys;
    while names != {}
      invariant names <= list.Keys
      invariant found == set k | k in list && k !in names && Counted(list, k) > 0.0
    {
      var name :| name in names;
      names := names - {name};
      if Supported(name) && list[name] > 0.0 {
        found := found + {name};
      }
    }
  }

  /** Whether every request has an equal limit. */
  method RequestsMatchLimits(requests: ResourceList, limits: ResourceList) returns (same: bool)
    ensures same <==> forall k :: k in requests ==> k in limits && limits[k] == requests[k]
  {
    var names := requests.Keys;
    while names != {}
      invariant names <= requests.Keys
      invariant forall k :: k in requests && k !in names ==> k in limits && limits[k] == requests[k]
    {
      var name :| name in names;
      if name !in limits || limits[name] != requests[name] {
        return false;
      }
      names := names - {name};
    }
    return true;
  }

  lemma TotalsVanish(rs: seq<Resources>)
    ensures NonePositive(rs) <==>
            && TotalRequests(rs, CPU) == 0.0 && TotalRequests(rs, MEMORY) == 0.0
            && TotalLimits(rs, CPU) == 0.0 && TotalLimits(rs, MEMORY) == 0.0
  {
    if rs != [] {
      var init := rs[..|rs| - 1];
      TotalsVanish(init);
      assert NonePositive(rs) <==> NonePositive(init) && !AnyPositive(rs[|rs| - 1]) by {
        forall i | 0 <= i < |rs|
          ensures NonePositive(init) && !AnyPositive(rs[|rs| - 1]) ==> !AnyPositive(rs[i])
        {
          if i < |init| {
            assert rs[i] == init[i];
          }
        }
      }
    }
  }

  lemma LimitedTotals(rs: seq<Resources>)
    requires rs != [] && AllLimited(rs)
    ensures TotalLimits(rs, CPU) > 0.0 && TotalLimits(rs, MEMORY) > 0.0
  {
    assert Limited(rs[|rs| - 1]);
  }

  /** What the comparison of the two maps of totals decides. */
  lemma GuaranteedFromTotals(requests: ResourceList, limits: ResourceList, rs: seq<Resources>)
    requires HoldsRequests(requests, rs) && HoldsLimits(limits, rs)
    ensures requests == map[] && limits == map[] <==> NonePositive(rs)
    ensures limits != map[] && AllLimited(rs) ==>
              (AggregateClass(rs) == Guaranteed <==>
               && (forall k :: k in requests ==> k in limits && limits[k] == requests[k])
               && |requests| == |limits|)
    ensures AggregateClass(rs) == Guaranteed ==> AllLimited(rs) && limits != map[]
  {
    TotalsVanish(rs);
    forall k
      ensures !Supported(k) ==> k !in requests && k !in limits
    {
      TotalsSupported(rs, k);
    }
    assert NonePositive(rs) <==> CPU !in requests && MEMORY !in requests && CPU !in limits && MEMORY !in limits;
    if AllLimited(rs) && rs != [] {
      LimitedTotals(rs);
      assert limits.Keys == {CPU, MEMORY};
      if |requests| == |limits| && requests.Keys <= limits.Keys {
        SubsetOfEqualSize(requests.Keys, limits.Keys);
      }
      if AggregateClass(rs) == Guaranteed {
        assert requests.Keys == {CPU, MEMORY};
        assert |requests| == |requests.Keys| == |limits.Keys| == |limits|;
      }
    }
  }

  /** The tail of the computation: the class that the two maps of totals stand for. */
  method ClassOfTotals(requests: ResourceList, limits: ResourceList, isGuaranteed: bool,
                       ghost rs: seq<Resources>)
      returns (c: QosClass)
    requires HoldsRequests(requests, rs) && HoldsLimits(limits, rs)
    requires AllLimited(rs) ==> isGuaranteed
    requires isGuaranteed ==> AllLimited(rs) || limits == map[]
    ensures c == AggregateClass(rs)
  {
    GuaranteedFromTotals(requests, limits, rs);
    if |requests| == 0 && |limits| == 0 {
      return BestEffort;
    }
    var guaranteed := isGuaranteed;
    if guaranteed {
      guaranteed := RequestsMatchLimits(requests, limits);
    }
    if guaranteed && |requests| == |limits| {
      return Guaranteed;
    }
    return Burstable;
  }

  lemma SubsetOfEqualSize<T>(a: set<T>, b: set<T>)
    requires a <= b && |a| == |b|
    ensures a == b
  {
    assert |b - a| == |b| - |a|;
  }

  lemma {:induction false} TotalsSupported(rs: seq<Resources>, k: string)
    ensures !Supported(k) ==> TotalRequests(rs, k) == 0.0 && TotalLimits(rs, k) == 0.0
  {
    if rs == [] {
    } else {
      TotalsSupported(rs[..|rs| - 1], k);
    }
  }

  lemma HoldsExtend(requests: ResourceList, limits: ResourceList, rs: seq<Resources>, r: Resources,
                    requests': ResourceList, limits': ResourceList)
    requires HoldsRequests(requests, rs) && HoldsLimits(limits, rs)
    requires AddsCounted(requests, r.requests, requests') && AddsCounted(limits, r.limits, limits')
    ensures HoldsRequests(requests', rs + [r]) && HoldsLimits(limits', rs + [r])
  {
    assert (rs + [r])[..|rs|] == rs;
  }

  lemma OneLimited(r: Resources)
    ensures AllLimited([r]) <==> Limited(r)
  {
    assert [r][0] == r;
  }

  method PodLevelClass(r: Resources) returns (c: QosClass)
    ensures c == AggregateClass([r])
  {
    var requests: ResourceList := map[];
    var limits: ResourceList := map[];
    var isGuaranteed := true;
    if |r.requests| > 0 {
      requests := ProcessResourceList(requests, r.requests);
    }
    if |r.limits| > 0 {
      limits := ProcessResourceList(limits, r.limits);
      var found := GetQosResources(r.limits);
      if !({MEMORY, CPU} <= found) {
        isGuaranteed := false;
      }
    }
    HoldsExtend(map[], map[], [], r, requests, limits);
    assert [] + [r] == [r];
    OneLimited(r);
    c := ClassOfTotals(requests, limits, isGuaranteed, [r]);
  }

  method ContainersClass(all: seq<Container>) returns (c: QosClass)
    ensures c == AggregateClass(ContainerResources(all))
  {
    var requests: ResourceList := map[];
    var limits: ResourceList := map[];
    var isGuaranteed := true;
    ghost var rs := ContainerResources(all);
    for i := 0 to |all|
      invariant HoldsRequests(requests, rs[..i]) && HoldsLimits(limits, rs[..i])
      invariant isGuaranteed <==> AllLimited(rs[..i])
    {
      var r := all[i].resources;
      var requests' := ProcessResourceList(requests, r.requests);
      var limits' := ProcessResourceList(limits, r.limits);
      HoldsExtend(requests, limits, rs[..i], r, requests', limits');
      requests, limits := requests', limits';
      var found := GetQosResources(r.limits);
      if !({MEMORY, CPU} <= found) {
        isGuaranteed := false;
      }
      assert rs[..i + 1] == rs[..i] + [r];
      AllLimitedExtend(rs[..i], r);
    }
    assert rs[..|all|] == rs;
    c := ClassOfTotals(requests, limits, isGuaranteed, rs);
  }

  lemma AllLimitedExtend(rs: seq<Resources>, r: Resources)
    ensures AllLimited(rs + [r]) <==> AllLimited(rs) && Limited(r)
  {
    assert forall i :: 0 <= i < |rs| ==> (rs + [r])[i] == rs[i];
    assert (rs + [r])[|rs|] == r;
  }

  method ComputePodQos(p: Pod, podLevel: bool) returns (c: QosClass)
    ensures c == PodClass(p, podLevel)
  {
    if podLevel && p.podResources.Some? {
      c := PodLevelClass(p.podResources.value);
    } else {
      c := ContainersClass(p.containers + p.initContainers);
    }
  }

  // ---------------------------------------------------------------------------
  // What the aggregated computation means
  // ---------------------------------------------------------------------------

  /** Positive CPU and memory limits, each equal to its request. */
  predicate GuaranteedContainer(r: Resources)
  {
    && Amount(r.limits, CPU) > 0.0 && Amount(r.requests, CPU) == Amount(r.limits, CPU)
    && Amount(r.limits, MEMORY) > 0.0 && Amount(r.requests, MEMORY) == Amount(r.limits, MEMORY)
  }

  /** No CPU or memory at all. */
  predicate EmptyContainer(r: Resources)
  {
    && Amount(r.requests, CPU) == 0.0 && Amount(r.limits, CPU) == 0.0
    && Amount(r.requests, MEMORY) == 0.0 && Amount(r.limits, MEMORY) == 0.0
  }

  /** The class as the documentation defines it, one container at a time. */
  function PerContainerClass(rs: seq<Resources>): QosClass
  {
    if forall i :: 0 <= i < |rs| ==> EmptyContainer(rs[i]) then BestEffort
    else if forall i :: 0 <= i < |rs| ==> GuaranteedContainer(rs[i]) then Guaranteed
    else Burstable
  }

  ghost predicate AllValid(rs: seq<Resources>)
  {
    forall i :: 0 <= i < |rs| ==> ValidResources(rs[i])
  }

  lemma {:induction false} TotalsOrdered(rs: seq<Resources>, k: string)
    requires AllValid(rs) && Supported(k)
    requires forall i :: 0 <= i < |rs| ==> Amount(rs[i].limits, k) > 0.0
    ensures TotalRequests(rs, k) <= TotalLimits(rs, k)
    ensures TotalRequests(rs, k) == TotalLimits(rs, k) <==>
            forall i :: 0 <= i < |rs| ==> Amount(rs[i].requests, k) == Amount(rs[i].limits, k)
  {
    if rs == [] {
    } else {
      var init, last := rs[..|rs| - 1], rs[|rs| - 1];
      assert forall i :: 0 <= i < |init| ==> init[i] == rs[i];
      TotalsOrdered(init, k);
      assert ValidResources(last) && Amount(last.requests, k) <= Amount(last.limits, k);
    }
  }

  /**
   On containers whose requests do not exceed their limits, comparing totals is
   the same as comparing container by container.
   */
  lemma AggregateIsPerContainer(rs: seq<Resources>)
    requires AllValid(rs)
    ensures AggregateClass(rs) == PerContainerClass(rs)
  {
    assert NonePositive(rs) <==> forall i :: 0 <= i < |rs| ==> EmptyContainer(rs[i]) by {
      assert forall i :: 0 <= i < |rs| ==> ValidResources(rs[i]);
      assert forall i :: 0 <= i < |rs| ==> (AnyPositive(rs[i]) <==> !EmptyContainer(rs[i]));
    }
    if AllLimited(rs) {
      assert forall i :: 0 <= i < |rs| ==> Limited(rs[i]);
      TotalsOrdered(rs, CPU);
      TotalsOrdered(rs, MEMORY);
    } else {
      var i :| 0 <= i < |rs| && !Limited(rs[i]);
      assert !GuaranteedContainer(rs[i]);
    }
  }

  /** Some container requests another amount than its limit, and yet the totals are equal. */
  ghost predicate Cancels(rs: seq<Resources>)
  {
    && AllLimited(rs)
    && TotalRequests(rs, CPU) == TotalLimits(rs, CPU)
    && TotalRequests(rs, MEMORY) == TotalLimits(rs, MEMORY)
    && exists i :: 0 <= i < |rs| && !GuaranteedContainer(rs[i])
  }

  lemma {:induction false} EqualTotals(rs: seq<Resources>, k: string)
    requires forall i :: 0 <= i < |rs| ==> Amount(rs[i].requests, k) == Amount(rs[i].limits, k)
    ensures TotalRequests(rs, k) == TotalLimits(rs, k)
  {
    if rs == [] {
    } else {
      EqualTotals(rs[..|rs| - 1], k);
    }
  }

  /** Without negative amounts, the class by totals is the class by containers unless differences cancel out. */
  lemma ClassesAgreeIff(rs: seq<Resources>)
    requires forall i :: 0 <= i < |rs| ==> NonNegative(rs[i].requests) && NonNegative(rs[i].limits)
    ensures AggregateClass(rs) == PerContainerClass(rs) <==> !Cancels(rs)
  {
    assert forall i :: 0 <= i < |rs| ==> (AnyPositive(rs[i]) <==> !EmptyContainer(rs[i]));
    assert NonePositive(rs) <==> forall i :: 0 <= i < |rs| ==> EmptyContainer(rs[i]);
    if forall i :: 0 <= i < |rs| ==> GuaranteedContainer(rs[i]) {
      EqualTotals(rs, CPU);
      EqualTotals(rs, MEMORY);
      assert forall i :: 0 <= i < |rs| ==> Limited(rs[i]);
    } else {
      var i :| 0 <= i < |rs| && !GuaranteedContainer(rs[i]);
      assert AllLimited(rs) ==> Limited(rs[i]);
    }
  }

  /** The container requests more of that resource than its limit. */
  predicate Above(r: Resources, k: string)
  {
    Counted(r.requests, k) > Counted(r.limits, k)
  }

  predicate Below(r: Resources, k: string)
  {
    Counted(r.requests, k) < Counted(r.limits, k)
  }

  /** If no container deviates to one side and one deviates to the other, so do the totals. */
  lemma {:induction false} OneSidedTotals(rs: seq<Resources>, k: string, i: nat)
    requires i < |rs|
    ensures (forall j :: 0 <= j < |rs| ==> !Above(rs[j], k)) && Below(rs[i], k) ==>
              TotalRequests(rs, k) < TotalLimits(rs, k)
    ensures (forall j :: 0 <= j < |rs| ==> !Below(rs[j], k)) && Above(rs[i], k) ==>
              TotalRequests(rs, k) > TotalLimits(rs, k)
  {
    var init, last := rs[..|rs| - 1], rs[|rs| - 1];
    assert forall j :: 0 <= j < |init| ==> init[j] == rs[j];
    if i == |rs| - 1 {
      OneSidedNoMore(init, k);
    } else {
      OneSidedTotals(init, k, i);
    }
  }

  lemma {:induction false} OneSidedNoMore(rs: seq<Resources>, k: string)
    ensures (forall j :: 0 <= j < |rs| ==> !Above(rs[j], k)) ==> TotalRequests(rs, k) <= TotalLimits(rs, k)
    ensures (forall j :: 0 <= j < |rs| ==> !Below(rs[j], k)) ==> TotalRequests(rs, k) >= TotalLimits(rs, k)
  {
    if rs == [] {
    } else {
      var init := rs[..|rs| - 1];
      assert forall j :: 0 <= j < |init| ==> init[j] == rs[j];
      OneSidedNoMore(init, k);
    }
  }

  /** When totals cancel out, one container requests above its limit and another one below, of the same resource. */
  lemma CancelsBothWays(rs: seq<Resources>) returns (k: string, above: nat, below: nat)
    requires Cancels(rs) && forall i :: 0 <= i < |rs| ==> NonNegative(rs[i].requests) && NonNegative(rs[i].limits)
    ensures k == CPU || k == MEMORY
    ensures above < |rs| && Above(rs[above], k) && below < |rs| && Below(rs[below], k)
  {
    var i :| 0 <= i < |rs| && !GuaranteedContainer(rs[i]);
    assert Limited(rs[i]);
    k := if Above(rs[i], CPU) || Below(rs[i], CPU) then CPU else MEMORY;
    OneSidedTotals(rs, k, i);
    if Above(rs[i], k) {
      above := i;
      below :| 0 <= below < |rs| && Below(rs[below], k);
    } else {
      below := i;
      above :| 0 <= above < |rs| && Above(rs[above], k);
    }
  }

  lemma TotalsOfOne(a: Resources, k: string)
    ensures TotalRequests([a], k) == Counted(a.requests, k)
    ensures TotalLimits([a], k) == Counted(a.limits, k)
  {
    assert [a][..0] == [];
  }

  lemma TotalsOfTwo(a: Resources, b: Resources, k: string)
    ensures TotalRequests([a, b], k) == Counted(a.requests, k) + Counted(b.requests, k)
    ensures TotalLimits([a, b], k) == Counted(a.limits, k) + Counted(b.limits, k)
  {
    assert [a, b][..1] == [a];
    TotalsOfOne(a, k);
  }

  function CpuAndMemory(cpu: Quantity, memory: Quantity): ResourceList
  {
    map[CPU := cpu, MEMORY := memory]
  }

  /** Requests above limits can cancel out between two containers, which then look guaranteed. */
  lemma CancellingTotals(x: Quantity, y: Quantity, memory: Quantity)
    requires 0.0 < x && 0.0 < y && x != y && 0.0 < memory
    ensures var below := Resources(CpuAndMemory(x, memory), CpuAndMemory(y, memory));
            var above := Resources(CpuAndMemory(y, memory), CpuAndMemory(x, memory));
            AggregateClass([below, above]) == Guaranteed && PerContainerClass([below, above]) == Burstable
  {
    var below := Resources(CpuAndMemory(x, memory), CpuAndMemory(y, memory));
    var above := Resources(CpuAndMemory(y, memory), CpuAndMemory(x, memory));
    var rs := [below, above];
    TotalsOfTwo(below, above, CPU);
    TotalsOfTwo(below, above, MEMORY);
    assert AnyPositive(rs[0]);
    assert !GuaranteedContainer(rs[0]) && !EmptyContainer(rs[0]);
  }

  lemma {:induction false} TotalsWithout(rs: seq<Resources>, j: nat, k: string)
    requires j < |rs|
    ensures TotalRequests(rs, k) == TotalRequests(rs[..j] + rs[j + 1..], k) + Counted(rs[j].requests, k)
    ensures TotalLimits(rs, k) == TotalLimits(rs[..j] + rs[j + 1..], k) + Counted(rs[j].limits, k)
  {
    var rest := rs[..j] + rs[j + 1..];
    if j == |rs| - 1 {
      assert rest == rs[..j];
    } else {
      var init := rs[..|rs| - 1];
      TotalsWithout(init, j, k);
      assert rest[..|rest| - 1] == init[..j] + init[j + 1..];
      assert rest[|rest| - 1] == rs[|rs| - 1];
    }
  }

  lemma WithoutOne<T>(xs: seq<T>, j: nat)
    requires j < |xs|
    ensures multiset(xs[..j] + xs[j + 1..]) == multiset(xs) - multiset{xs[j]}
  {
    assert xs == xs[..j] + [xs[j]] + xs[j + 1..];
  }

  lemma PermutedRest<T>(xs: seq<T>, ys: seq<T>, j: nat)
    requires multiset(xs) == multiset(ys) && xs != [] && j < |ys| && ys[j] == xs[|xs| - 1]
    ensures multiset(xs[..|xs| - 1]) == multiset(ys[..j] + ys[j + 1..])
  {
    WithoutOne(xs, |xs| - 1);
    WithoutOne(ys, j);
    assert xs[..|xs| - 1] + xs[|xs| - 1 + 1..] == xs[..|xs| - 1];
  }

  lemma {:induction false} TotalsPermute(rs: seq<Resources>, rs': seq<Resources>, k: string)
    requires multiset(rs) == multiset(rs')
    ensures TotalRequests(rs, k) == TotalRequests(rs', k)
    ensures TotalLimits(rs, k) == TotalLimits(rs', k)
    decreases |rs|
  {
    if rs == [] {
      assert |multiset(rs')| == 0;
    } else {
      var last := rs[|rs| - 1];
      assert last in multiset(rs');
      var j :| 0 <= j < |rs'| && rs'[j] == last;
      PermutedRest(rs, rs', j);
      TotalsPermute(rs[..|rs| - 1], rs'[..j] + rs'[j + 1..], k);
      TotalsWithout(rs', j, k);
    }
  }

  /** The class does not depend on the order of the containers. */
  lemma ClassIgnoresOrder(rs: seq<Resources>, rs': seq<Resources>)
    requires multiset(rs) == multiset(rs')
    ensures AggregateClass(rs) == AggregateClass(rs')
  {
    assert forall r :: r in rs <==> r in multiset(rs);
    assert forall r :: r in rs' <==> r in multiset(rs');
    assert NonePositive(rs) <==> forall r :: r in rs ==> !AnyPositive(r);
    assert NonePositive(rs') <==> forall r :: r in rs' ==> !AnyPositive(r);
    assert AllLimited(rs) <==> forall r :: r in rs ==> Limited(r);
    assert AllLimited(rs') <==> forall r :: r in rs' ==> Limited(r);
    TotalsPermute(rs, rs', CPU);
    TotalsPermute(rs, rs', MEMORY);
  }
}
