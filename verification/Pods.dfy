/**
 Pods, as far as the boost reads or writes them.

 The text of the boost annotation and of a printed quantity is kept abstract: a
 text is either what printing some value produced, or a text that does not parse.
 Printing and parsing are therefore inverse to each other, and the malformed
 inputs stay in the model. A map that the source leaves nil and an empty one are
 the same value here, as they are in the JSON form of a pod.
 */
module Pods {
  import opened Wrappers
  import opened Quantities
  import opened Selectors

  const CPU := "cpu"
  const MEMORY := "memory"
  const BOOST_KEY := "autoscaling.x-k8s.io/startup-cpu-boost"

  type ResourceList = map<string, Quantity>

  datatype Resources = Resources(requests: ResourceList, limits: ResourceList)

  datatype ResizeRule = ResizeRule(resource: string, restartContainer: bool)

  datatype Container = Container(name: string, resources: Resources, resizePolicy: seq<ResizeRule>)

  datatype QuantityText = Printed(quantity: Quantity) | MalformedQuantity(raw: string)

  datatype BoostAnnotation = BoostAnnotation(
    timestamp: int,
    initCpuRequests: map<string, QuantityText>,
    initCpuLimits: map<string, QuantityText>)

  datatype AnnotationText = BoostJson(annotation: BoostAnnotation) | OtherText(raw: string)

  datatype Condition = Condition(kind: string, status: string, lastTransition: int)

  datatype Pod = Pod(
    name: string,
    namespace: string,
    labels: Labels,
    annotations: map<string, AnnotationText>,
    containers: seq<Container>,
    initContainers: seq<Container>,
    podResources: Option<Resources>,
    conditions: seq<Condition>)

  function Amount(list: ResourceList, name: string): Quantity
  {
    if name in list then list[name] else 0.0
  }

  /** The boost annotation of a pod, if it is present and decodes. */
  function BoostAnnotationFromPod(p: Pod): Option<BoostAnnotation>
  {
    if BOOST_KEY in p.annotations && p.annotations[BOOST_KEY].BoostJson?
    then Some(p.annotations[BOOST_KEY].annotation)
    else None
  }

  /** The number of containers that were boosted in the pod. */
  function BoostContainersLen(p: Pod): nat
  {
    match BoostAnnotationFromPod(p)
    case Some(a) => |a.initCpuRequests|
    case None => 0
  }

  predicate DistinctNames(cs: seq<Container>)
  {
    forall i, j :: 0 <= i < j < |cs| ==> cs[i].name != cs[j].name
  }

  predicate NonNegative(list: ResourceList)
  {
    forall k :: k in list ==> list[k] >= 0.0
  }

  /** What the API server admits: no negative amount, no request above its limit. */
  predicate ValidResources(r: Resources)
  {
    && NonNegative(r.requests)
    && NonNegative(r.limits)
    && forall k :: k in r.limits ==> Amount(r.requests, k) <= r.limits[k]
  }

  /** An in-memory pod, shared by reference and changed in place. */
  class PodObject {
    var name: string
    var namespace: string
    var labels: Labels
    var annotations: map<string, AnnotationText>
    var containers: seq<Container>
    var initContainers: seq<Container>
    var podResources: Option<Resources>
    var conditions: seq<Condition>

    function Value(): Pod
      reads this
    {
      Pod(name, namespace, labels, annotations, containers, initContainers, podResources, conditions)
    }

    constructor (p: Pod)
      ensures Value() == p
    {
      name, namespace, labels, annotations := p.name, p.namespace, p.labels, p.annotations;
      containers, initContainers := p.containers, p.initContainers;
      podResources, conditions := p.podResources, p.conditions;
    }

    /** Overwrites the object with the copy that the API server answered. */
    method Load(p: Pod)
      modifies this
      ensures Value() == p
    {
      name, namespace, labels, annotations := p.name, p.namespace, p.labels, p.annotations;
      containers, initContainers := p.containers, p.initContainers;
      podResources, conditions := p.podResources, p.conditions;
    }
  }
}
