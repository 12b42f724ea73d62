/**
 Reverting a boosted pod in place from the values kept in its annotation.

 The operations change the pod object they are given, also when they fail half way,
 so each has a function that gives the object's value afterwards together with the
 success of the call.
 */
module Revert {
  import opened Pods

  datatype Outcome = Outcome(pod: Pod, ok: bool)

  /** Puts back one container's CPU request, then its CPU limit. */
  function RevertContainer(c: Container, a: BoostAnnotation): (Container, bool)
  {
    var (requests, ok) := RestoreCpu(c.resources.requests, a.initCpuRequests, c.name);
    var c' := c.(resources := c.resources.(requests := requests));
    if !ok then (c', false)
    else
      var (limits, ok') := RestoreCpu(c.resources.limits, a.initCpuLimits, c.name);
      (c'.(resources := c'.resources.(limits := limits)), ok')
  }

  function RestoreCpu(list: ResourceList, initial: map<string, QuantityText>, name: string): (ResourceList, bool)
  {
    if name !in initial then (list, true)
    else match initial[name]
      case Printed(q) => (list[CPU := q], true)
      case MalformedQuantity(_) => (list, false)
  }

  /** The containers after the loop has run from index `i`; it stops at the first malformed quantity. */
  function RevertFrom(cs: seq<Container>, a: BoostAnnotation, i: nat): (r: (seq<Container>, bool))
    requires i <= |cs|
    ensures |r.0| == |cs|
    decreases |cs| - i
  {
    if i == |cs| then (cs, true)
    else
      var (c, ok) := RevertContainer(cs[i], a);
      if ok then RevertFrom(cs[i := c], a, i + 1) else (cs[i := c], false)
  }

  function RevertBoostResources(p: Pod): Outcome
  {
    match BoostAnnotationFromPod(p)
    case None => Outcome(p, false)
    case Some(a) =>
      var (cs, ok) := RevertFrom(p.containers, a, 0);
      Outcome(p.(containers := cs), ok)
  }

  function RevertBoostLabels(p: Pod): Pod
  {
    p.(labels := p.labels - {BOOST_KEY}, annotations := p.annotations - {BOOST_KEY})
  }

  function RevertResourceBoost(p: Pod): Outcome
  {
    var r := RevertBoostResources(p);
    if r.ok then Outcome(RevertBoostLabels(r.pod), true) else r
  }

  method RevertResources(obj: PodObject) returns (ok: bool)
    modifies obj`containers
    ensures Outcome(obj.Value(), ok) == RevertBoostResources(old(obj.Value()))
  {
    if BOOST_KEY !in obj.annotations || !obj.annotations[BOOST_KEY].BoostJson? {
      return false;
    }
    var annotation := obj.annotations[BOOST_KEY].annotation;
    var i := 0;
    while i < |obj.containers|
      invariant 0 <= i <= |obj.containers|
      invariant obj.Value() == old(obj.Value()).(containers := obj.containers)
      invariant RevertFrom(old(obj.containers), annotation, 0) == RevertFrom(obj.containers, annotation, i)
    {
      var c := obj.containers[i];
      if c.name in annotation.initCpuRequests {
        match annotation.initCpuRequests[c.name]
        case Printed(q) =>
          c := c.(resources := c.resources.(requests := c.resources.requests[CPU := q]));
        case MalformedQuantity(_) =>
          assert obj.containers[i := c] == obj.containers;
          return false;
      }
      if c.name in annotation.initCpuLimits {
        match annotation.initCpuLimits[c.name]
        case Printed(q) =>
          c := c.(resources := c.resources.(limits := c.resources.limits[CPU := q]));
        case MalformedQuantity(_) =>
          obj.containers := obj.containers[i := c];
          return false;
      }
      obj.containers := obj.containers[i := c];
      i := i + 1;
    }
    return true;
  }

  method RevertLabels(obj: PodObject)
    modifies obj`labels, obj`annotations
    ensures obj.Value() == RevertBoostLabels(old(obj.Value()))
  {
    obj.labels := obj.labels - {BOOST_KEY};
    obj.annotations := obj.annotations - {BOOST_KEY};
  }

  method RevertBoost(obj: PodObject) returns (ok: bool)
    modifies obj`containers, obj`labels, obj`annotations
    ensures Outcome(obj.Value(), ok) == RevertResourceBoost(old(obj.Value()))
  {
    ok := RevertResources(obj);
    if ok {
      RevertLabels(obj);
    }
  }

  // ---------------------------------------------------------------------------

  /** The kept quantities of this container, if any, are well formed. */
  predicate Restorable(c: Container, a: BoostAnnotation)
  {
    && (c.name in a.initCpuRequests ==> a.initCpuRequests[c.name].Printed?)
    && (c.name in a.initCpuLimits ==> a.initCpuLimits[c.name].Printed?)
  }

  /** Where every kept quantity is well formed, every container is put back, independently of the others. */
  lemma {:induction false} RevertFromPointwise(cs: seq<Container>, a: BoostAnnotation, i: nat)
    requires i <= |cs|
    requires forall j :: i <= j < |cs| ==> Restorable(cs[j], a)
    ensures RevertFrom(cs, a, i).1
    ensures forall j :: 0 <= j < |cs| ==>
              RevertFrom(cs, a, i).0[j] == if j < i then cs[j] else RevertContainer(cs[j], a).0
    decreases |cs| - i
  {
    if i == |cs| {
    } else {
      RevertFromPointwise(cs[i := RevertContainer(cs[i], a).0], a, i + 1);
    }
  }

  /** The loop succeeds exactly when every container it visits can be put back. */
  lemma {:induction false} RevertFromSucceedsIff(cs: seq<Container>, a: BoostAnnotation, i: nat)
    requires i <= |cs|
    ensures RevertFrom(cs, a, i).1 <==> forall j :: i <= j < |cs| ==> Restorable(cs[j], a)
    decreases |cs| - i
  {
    if i == |cs| {
    } else {
      var c := RevertContainer(cs[i], a).0;
      RevertFromSucceedsIff(cs[i := c], a, i + 1);
      assert forall j :: i < j < |cs| ==> cs[i := c][j] == cs[j];
    }
  }

  lemma RevertContainerTwice(c: Container, a: BoostAnnotation)
    requires Restorable(c, a)
    ensures RevertContainer(RevertContainer(c, a).0, a) == RevertContainer(c, a)
  {
    var c' := RevertContainer(c, a).0;
    assert RestoreCpu(c'.resources.requests, a.initCpuRequests, c.name).0 == c'.resources.requests;
    assert RestoreCpu(c'.resources.limits, a.initCpuLimits, c.name).0 == c'.resources.limits;
  }

  /** Reverting resources a second time changes nothing. */
  lemma RevertIsIdempotent(p: Pod)
    requires RevertBoostResources(p).ok
    ensures RevertBoostResources(RevertBoostResources(p).pod) == RevertBoostResources(p)
  {
    var a := BoostAnnotationFromPod(p).value;
    var q := RevertBoostResources(p).pod;
    RevertFromSucceedsIff(p.containers, a, 0);
    RevertFromPointwise(p.containers, a, 0);
    RevertFromPointwise(q.containers, a, 0);
    forall j | 0 <= j < |q.containers|
      ensures RevertFrom(q.containers, a, 0).0[j] == q.containers[j]
    {
      RevertContainerTwice(p.containers[j], a);
    }
    assert RevertFrom(q.containers, a, 0).0 == q.containers;
  }
}
