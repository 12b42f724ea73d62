/**
 What boosting promises: the pod keeps its class, and reverting gives back the
 original pod.
 */
module AdmissionProofs {
  import opened Quantities
  import opened Pods
  import opened Policies
  import opened Qos
  import opened Revert
  import opened Admission

  // ---------------------------------------------------------------------------
  // Invariants of the loop
  // ---------------------------------------------------------------------------

  type LoopInvariant = (Pod, BoostAnnotation, nat) -> bool

  ghost predicate KeptByStep(h: Webhook, b: Boost, qos: QosClass, inv: LoopInvariant)
  {
    forall p: Pod, a: BoostAnnotation, i: nat :: i < |p.containers| && inv(p, a, i) ==>
      var next := BoostStep(h, b, qos, p, a, i);
      inv(next.0, next.1, i + 1)
  }

  /** What every turn keeps holds after the loop. */
  lemma {:induction false} LoopKeeps(h: Webhook, b: Boost, qos: QosClass, inv: LoopInvariant,
                                     p: Pod, a: BoostAnnotation, i: nat)
    requires i <= |p.containers| && inv(p, a, i) && KeptByStep(h, b, qos, inv)
    ensures var end := BoostFrom(h, b, qos, p, a, i);
            |end.0.containers| == |p.containers| && inv(end.0, end.1, |p.containers|)
    decreases |p.containers| - i
  {
    if i == |p.containers| {
    } else {
      var next := BoostStep(h, b, qos, p, a, i);
      LoopKeeps(h, b, qos, inv, next.0, next.1, i + 1);
    }
  }

  // ---------------------------------------------------------------------------
  // What the loop decides
  // ---------------------------------------------------------------------------

  /** The original pod with its containers before `i` as they end up in `q`. */
  function BoostedUpTo(p: Pod, q: Pod, i: nat): Pod
    requires i <= |p.containers| == |q.containers|
  {
    p.(containers := q.containers[..i] + p.containers[i..])
  }

  /** Container `i` of `q` is what the decision makes of it when the earlier containers are as in `q`. */
  ghost predicate GreedyAt(h: Webhook, b: Boost, qos: QosClass, p: Pod, q: Pod, i: nat)
    requires i < |p.containers| == |q.containers|
  {
    q.containers[i] ==
    match Decide(h, b, qos, BoostedUpTo(p, q, i), i)
    case None => p.containers[i]
    case Some(r) => p.containers[i].(resources := r)
  }

  ghost predicate Greedy(h: Webhook, b: Boost, qos: QosClass, p: Pod, q: Pod, n: nat)
  {
    && n <= |p.containers| == |q.containers|
    && q == BoostedUpTo(p, q, n)
    && forall i :: 0 <= i < n ==> GreedyAt(h, b, qos, p, q, i)
  }

  lemma GreedyStep(h: Webhook, b: Boost, qos: QosClass, p: Pod, q: Pod, a: BoostAnnotation, n: nat)
    requires Greedy(h, b, qos, p, q, n) && n < |p.containers|
    ensures Greedy(h, b, qos, p, BoostStep(h, b, qos, q, a, n).0, n + 1)
  {
    var q' := BoostStep(h, b, qos, q, a, n).0;
    assert q.containers[n] == p.containers[n];
    assert q'.containers == q'.containers[..n + 1] + p.containers[n + 1..];
    forall i | 0 <= i <= n
      ensures BoostedUpTo(p, q', i) == BoostedUpTo(p, q, i)
    {
      assert q'.containers[..i] == q.containers[..i];
    }
    forall i | 0 <= i < n
      ensures GreedyAt(h, b, qos, p, q', i)
    {
      assert GreedyAt(h, b, qos, p, q, i);
    }
    assert GreedyAt(h, b, qos, p, q', n);
  }

  /**
   The containers are decided on one after the other, each against the class of the
   original pod, with the earlier ones already boosted; nothing else of the pod changes.
   */
  lemma LoopIsGreedy(h: Webhook, b: Boost, p: Pod, now: int)
    ensures Greedy(h, b, PodClass(p, h.podLevel), p, Loop(h, b, p, now).0, |p.containers|)
  {
    var qos := PodClass(p, h.podLevel);
    var inv: LoopInvariant := (q, a, i: nat) => Greedy(h, b, qos, p, q, i);
    forall q: Pod, a: BoostAnnotation, i: nat | i < |q.containers| && inv(q, a, i)
      ensures var next := BoostStep(h, b, qos, q, a, i);
              inv(next.0, next.1, i + 1)
    {
      GreedyStep(h, b, qos, p, q, a, i);
    }
    assert p.containers == p.containers[..0] + p.containers[0..];
    LoopKeeps(h, b, qos, inv, p, NewAnnotation(now), 0);
  }

  // ---------------------------------------------------------------------------
  // Round trip
  // ---------------------------------------------------------------------------

  /** The state of the loop before container `i`, compared with the pod it started from. */
  ghost predicate Undoable(p0: Pod, p: Pod, a: BoostAnnotation, i: nat)
  {
    && p == p0.(containers := p.containers)
    && |p.containers| == |p0.containers|
    && i <= |p.containers|
    && AllPrinted(a)
    && (forall j :: i <= j < |p.containers| ==> p.containers[j] == p0.containers[j])
    && (forall j :: 0 <= j < |p.containers| ==> p.containers[j].name == p0.containers[j].name)
    && (forall j :: 0 <= j < i ==> RevertContainer(p.containers[j], a).0 == p0.containers[j])
    && (forall j :: i <= j < |p.containers| ==> !Mentions(a, p.containers[j].name))
    && (IsEmpty(a) ==> p.containers == p0.containers)
  }

  predicate AllPrinted(a: BoostAnnotation)
  {
    && (forall k :: k in a.initCpuRequests ==> a.initCpuRequests[k].Printed?)
    && (forall k :: k in a.initCpuLimits ==> a.initCpuLimits[k].Printed?)
  }

  predicate Mentions(a: BoostAnnotation, name: string)
  {
    name in a.initCpuRequests || name in a.initCpuLimits
  }

  lemma RevertIgnoresOthers(c: Container, a: BoostAnnotation, other: Container)
    requires c.name != other.name
    ensures RevertContainer(c, KeepOriginal(a, other)) == RevertContainer(c, a)
  {
  }

  lemma RevertUnmentioned(c: Container, a: BoostAnnotation)
    requires !Mentions(a, c.name)
    ensures RevertContainer(c, a) == (c, true)
  {
  }

  /** Putting back the kept values undoes the policy and the dropped limit. */
  lemma RevertUndoesBoost(h: Webhook, qos: QosClass, policy: Policy, c: Container, a: BoostAnnotation)
    requires !Mentions(a, c.name)
    ensures var r := DropLimit(h, qos, NewResources(policy, c.resources));
            RevertContainer(c.(resources := r), KeepOriginal(a, c)) == (c, true)
  {
    var r := DropLimit(h, qos, NewResources(policy, c.resources));
    var a' := KeepOriginal(a, c);
    NewResourcesTouchesOnlyCpu(policy, c.resources);
    assert RestoreCpu(r.requests, a'.initCpuRequests, c.name).0 == c.resources.requests;
    assert RestoreCpu(r.limits, a'.initCpuLimits, c.name).0 == c.resources.limits;
  }

  lemma UndoableBoost(h: Webhook, qos: QosClass, policy: Policy, p0: Pod, p: Pod, a: BoostAnnotation, i: nat)
    requires DistinctNames(p0.containers) && Undoable(p0, p, a, i) && i < |p.containers|
    requires HasResourcesToIncrease(p.containers[i])
    ensures var r := DropLimit(h, qos, NewResources(policy, p.containers[i].resources));
            Undoable(p0, WithResources(p, i, r), KeepOriginal(a, p.containers[i]), i + 1)
  {
    var c := p.containers[i];
    RevertUndoesBoost(h, qos, policy, c, a);
    forall j | 0 <= j < i
      ensures RevertContainer(p.containers[j], KeepOriginal(a, c)) == RevertContainer(p.containers[j], a)
    {
      RevertIgnoresOthers(p.containers[j], a, c);
    }
  }

  lemma UndoableStep(h: Webhook, b: Boost, qos: QosClass, p0: Pod, p: Pod, a: BoostAnnotation, i: nat)
    requires DistinctNames(p0.containers) && Undoable(p0, p, a, i) && i < |p.containers|
    ensures var next := BoostStep(h, b, qos, p, a, i);
            Undoable(p0, next.0, next.1, i + 1)
  {
    var c := p.containers[i];
    if Decide(h, b, qos, p, i).None? {
      RevertUnmentioned(c, a);
    } else {
      UndoableBoost(h, qos, ResourcePolicy(b.policies, c.name).value, p0, p, a, i);
    }
  }

  lemma UndoableLoop(h: Webhook, b: Boost, p: Pod, now: int)
    requires DistinctNames(p.containers)
    ensures var (q, a) := Loop(h, b, p, now);
            Undoable(p, q, a, |p.containers|)
  {
    var qos := PodClass(p, h.podLevel);
    var inv: LoopInvariant := (q, a, i: nat) => Undoable(p, q, a, i);
    forall q: Pod, a: BoostAnnotation, i: nat | i < |q.containers| && inv(q, a, i)
      ensures var next := BoostStep(h, b, qos, q, a, i);
              inv(next.0, next.1, i + 1)
    {
      UndoableStep(h, b, qos, p, q, a, i);
    }
    LoopKeeps(h, b, qos, inv, p, NewAnnotation(now), 0);
  }

  lemma RevertMarked(p0: Pod, q: Pod, a: BoostAnnotation, boost: string)
    requires Undoable(p0, q, a, |p0.containers|) && !IsEmpty(a)
    ensures RevertResourceBoost(MarkBoosted(q, a, boost)) == Outcome(RevertBoostLabels(p0), true)
  {
    var marked := MarkBoosted(q, a, boost);
    RevertFromPointwise(q.containers, a, 0);
    assert RevertFrom(q.containers, a, 0).0 == p0.containers;
    assert marked.labels - {BOOST_KEY} == p0.labels - {BOOST_KEY};
    assert marked.annotations - {BOOST_KEY} == p0.annotations - {BOOST_KEY};
  }

  lemma LabelsRevertedIff(p: Pod)
    ensures RevertBoostLabels(p) == p <==> BOOST_KEY !in p.labels && BOOST_KEY !in p.annotations
  {
    if BOOST_KEY !in p.labels && BOOST_KEY !in p.annotations {
      assert p.labels - {BOOST_KEY} == p.labels;
      assert p.annotations - {BOOST_KEY} == p.annotations;
    } else {
      assert BOOST_KEY !in p.labels - {BOOST_KEY} && BOOST_KEY !in p.annotations - {BOOST_KEY};
    }
  }

  /**
   Round trip. A pod that the webhook left alone is unchanged. A pod that it boosted
   reverts to the original, except for a boost label or annotation that was there
   before, so it reverts to exactly the original when and only when there was none.
   */
  lemma RoundTrip(h: Webhook, b: Boost, p: Pod, now: int)
    requires DistinctNames(p.containers)
    ensures !WasBoosted(h, b, p, now) ==> Boosted(h, b, p, now) == p
    ensures WasBoosted(h, b, p, now) ==>
              RevertResourceBoost(Boosted(h, b, p, now)) == Outcome(RevertBoostLabels(p), true)
    ensures WasBoosted(h, b, p, now) ==>
              (RevertResourceBoost(Boosted(h, b, p, now)) == Outcome(p, true) <==>
               BOOST_KEY !in p.labels && BOOST_KEY !in p.annotations)
  {
    UndoableLoop(h, b, p, now);
    var (q, a) := Loop(h, b, p, now);
    if WasBoosted(h, b, p, now) {
      RevertMarked(p, q, a, b.name);
      LabelsRevertedIff(p);
    }
  }

  // ---------------------------------------------------------------------------
  // Class preservation
  // ---------------------------------------------------------------------------

  /** Whether the class is computed from the containers rather than from pod-level resources. */
  predicate ByContainers(h: Webhook, p: Pod)
  {
    !(h.podLevel && p.podResources.Some?)
  }

  lemma InputsWithResources(h: Webhook, p: Pod, i: nat, r: Resources)
    requires i < |p.containers|
    ensures QosInputs(WithResources(p, i, r), h.podLevel) ==
            if ByContainers(h, p) then QosInputs(p, h.podLevel)[i := r] else QosInputs(p, h.podLevel)
  {
    if ByContainers(h, p) {
      assert QosInputs(WithResources(p, i, r), h.podLevel) == QosInputs(p, h.podLevel)[i := r];
    }
  }

  /** Dropping the CPU limit of one container, seen from the class. */
  lemma DropAndClass(rs: seq<Resources>, i: nat, r: Resources)
    requires i < |rs|
    requires AggregateClass(rs[i := r]) != Guaranteed
    ensures var dropped := rs[i := r.(limits := r.limits - {CPU})];
            AggregateClass(dropped) == if NonePositive(dropped) then BestEffort else Burstable
    ensures var dropped := rs[i := r.(limits := r.limits - {CPU})];
            (Counted(r.limits, CPU) > 0.0 ==> Counted(r.requests, CPU) > 0.0) ==>
              AggregateClass(dropped) == AggregateClass(rs[i := r])
  {
    var r' := r.(limits := r.limits - {CPU});
    var with, dropped := rs[i := r], rs[i := r'];
    assert !Limited(dropped[i]);
    if Counted(r.limits, CPU) > 0.0 ==> Counted(r.requests, CPU) > 0.0 {
      assert AnyPositive(r) <==> AnyPositive(r');
      assert NonePositive(with) <==> NonePositive(dropped) by {
        assert with[i] == r && dropped[i] == r';
        assert forall j :: 0 <= j < |rs| && j != i ==> with[j] == dropped[j];
      }
    }
  }

  predicate NonNegativeContainer(c: Container)
  {
    NonNegative(c.resources.requests) && NonNegative(c.resources.limits)
  }

  /** No negative amount, and a positive CPU limit comes with a positive CPU request, as API defaulting arranges. */
  predicate Defaulted(c: Container)
  {
    && NonNegativeContainer(c)
    && (Amount(c.resources.limits, CPU) > 0.0 ==> Amount(c.resources.requests, CPU) > 0.0)
  }

  lemma BoostedRequestStaysPositive(policy: Policy, r: Resources)
    requires NonNegative(r.requests) && NonNegative(r.limits)
    requires Amount(r.requests, CPU) > 0.0
    ensures var r' := NewResources(policy, r);
            Counted(r'.limits, CPU) > 0.0 ==> Counted(r'.requests, CPU) > 0.0
  {
    if policy.Percentage? {
      IncreaseSign(r.requests[CPU], policy.percentage);
      if CPU in r.limits && r.limits[CPU] > 0.0 {
        IncreaseSign(r.limits[CPU], policy.percentage);
      } else if CPU in r.limits {
        CeilingIsLeast(0.0, 0);
      }
    }
  }

  lemma ClassStep(h: Webhook, b: Boost, qos: QosClass, p: Pod, i: nat)
    requires i < |p.containers|
    requires Defaulted(p.containers[i]) && PodClass(p, h.podLevel) == qos
    ensures Decide(h, b, qos, p, i).Some? ==>
              PodClass(WithResources(p, i, Decide(h, b, qos, p, i).value), h.podLevel) == qos
  {
    var c := p.containers[i];
    var decision := Decide(h, b, qos, p, i);
    if decision.Some? {
      var policy := ResourcePolicy(b.policies, c.name).value;
      var r := NewResources(policy, c.resources);
      InputsWithResources(h, p, i, r);
      InputsWithResources(h, p, i, decision.value);
      if ByContainers(h, p) && decision.value != r {
        BoostedRequestStaysPositive(policy, c.resources);
        DropAndClass(QosInputs(p, h.podLevel), i, r);
      }
    }
  }

  ghost predicate ClassKept(h: Webhook, qos: QosClass, p: Pod, i: nat)
  {
    PodClass(p, h.podLevel) == qos && forall j :: i <= j < |p.containers| ==> Defaulted(p.containers[j])
  }

  lemma ClassLoop(h: Webhook, b: Boost, p: Pod, now: int)
    requires forall j :: 0 <= j < |p.containers| ==> Defaulted(p.containers[j])
    ensures PodClass(Loop(h, b, p, now).0, h.podLevel) == PodClass(p, h.podLevel)
  {
    var qos := PodClass(p, h.podLevel);
    var inv: LoopInvariant := (q, a, i: nat) => ClassKept(h, qos, q, i);
    forall q: Pod, a: BoostAnnotation, i: nat | i < |q.containers| && inv(q, a, i)
      ensures var next := BoostStep(h, b, qos, q, a, i);
              inv(next.0, next.1, i + 1)
    {
      ClassStep(h, b, qos, q, i);
    }
    LoopKeeps(h, b, qos, inv, p, NewAnnotation(now), 0);
  }

  lemma MarkKeepsClass(h: Webhook, p: Pod, a: BoostAnnotation, boost: string)
    ensures PodClass(MarkBoosted(p, a, boost), h.podLevel) == PodClass(p, h.podLevel)
  {
  }

  /**
   The class check is made before the CPU limit is dropped, and the pod still ends
   in its original class: for every policy, every setting and every pod in which a
   positive CPU limit comes with a positive CPU request.
   */
  lemma BoostKeepsQosClass(h: Webhook, b: Boost, p: Pod, now: int)
    requires forall j :: 0 <= j < |p.containers| ==> Defaulted(p.containers[j])
    ensures PodClass(Boosted(h, b, p, now), h.podLevel) == PodClass(p, h.podLevel)
  {
    ClassLoop(h, b, p, now);
    var (q, a) := Loop(h, b, p, now);
    MarkKeepsClass(h, q, a, b.name);
  }
}
