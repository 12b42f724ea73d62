/**
 The JSON form of a pod, in which empty maps and lists are left out, and its decoding.
 */
module PodJson {
  import opened Wrappers
  import opened Quantities
  import opened Selectors
  import opened Pods
  import opened MergePatch
  import opened Tabulation

  datatype Leaf =
    | Str(s: string)
    | Annot(text: AnnotationText)
    | Qty(q: Quantity)
    | Time(t: int)
    | Flag(b: bool)

  type PJson = Json<Leaf>

  // ---------------------------------------------------------------------------
  // Encoding
  // ---------------------------------------------------------------------------

  function Text(s: string): PJson
  {
    Atom(Str(s))
  }

  function EncodeLabels(m: Labels): PJson
  {
    Obj(Tabulate(m.Keys, k requires k in m => Text(m[k])))
  }

  function EncodeAnnotations(m: map<string, AnnotationText>): PJson
  {
    Obj(Tabulate(m.Keys, k requires k in m => Atom(Annot(m[k]))))
  }

  function EncodeList(m: ResourceList): PJson
  {
    Obj(Tabulate(m.Keys, k requires k in m => Atom(Qty(m[k]))))
  }

  /** A field that is left out when its value is an empty object or list. */
  function OmitEmpty(k: string, j: PJson): map<string, PJson>
  {
    if j == Obj(map[]) || j == Arr([]) then map[] else map[k := j]
  }

  function EncodeResources(r: Resources): PJson
  {
    Obj(OmitEmpty("requests", EncodeList(r.requests)) + OmitEmpty("limits", EncodeList(r.limits)))
  }

  function EncodeRules(rules: seq<ResizeRule>): PJson
  {
    Arr(seq(|rules|, i requires 0 <= i < |rules| =>
          Obj(map["resourceName" := Text(rules[i].resource),
              "restartContainer" := Atom(Flag(rules[i].restartContainer))])))
  }

  function EncodeContainer(c: Container): PJson
  {
    Obj(map["name" := Text(c.name), "resources" := EncodeResources(c.resources)] +
        OmitEmpty("resizePolicy", EncodeRules(c.resizePolicy)))
  }

  function EncodeContainers(cs: seq<Container>): PJson
  {
    Arr(seq(|cs|, i requires 0 <= i < |cs| => EncodeContainer(cs[i])))
  }

  function EncodeConditions(cs: seq<Condition>): PJson
  {
    Arr(seq(|cs|, i requires 0 <= i < |cs| =>
          Obj(map["type" := Text(cs[i].kind), "status" := Text(cs[i].status),
                  "lastTransitionTime" := Atom(Time(cs[i].lastTransition))])))
  }

  function EncodeMetadata(p: Pod): PJson
  {
    Obj(map["name" := Text(p.name), "namespace" := Text(p.namespace)] +
        OmitEmpty("labels", EncodeLabels(p.labels)) +
        OmitEmpty("annotations", EncodeAnnotations(p.annotations)))
  }

  function EncodeSpec(p: Pod): PJson
  {
    Obj(map["containers" := EncodeContainers(p.containers)] +
        OmitEmpty("initContainers", EncodeContainers(p.initContainers)) +
        match p.podResources
        case None => map[]
        case Some(r) => map["resources" := EncodeResources(r)])
  }

  function EncodeStatus(p: Pod): PJson
  {
    Obj(OmitEmpty("conditions", EncodeConditions(p.conditions)))
  }

  function Encode(p: Pod): PJson
  {
    Obj(map["metadata" := EncodeMetadata(p), "spec" := EncodeSpec(p), "status" := EncodeStatus(p)])
  }

  // ---------------------------------------------------------------------------
  // Decoding
  // ---------------------------------------------------------------------------

  /** A field, or the value that stands for its absence. */
  function Field(j: PJson, k: string, absent: PJson): PJson
  {
    if j.Obj? && k in j.fields then j.fields[k] else absent
  }

  function DecodeText(j: PJson): string
  {
    if j.Atom? && j.value.Str? then j.value.s else ""
  }

  /** The fields of an object that satisfy the test. */
  function FieldsWith(j: PJson, test: PJson -> bool): set<string>
  {
    if j.Obj? then set k | k in j.fields && test(j.fields[k]) else {}
  }

  predicate IsText(j: PJson)
  {
    j.Atom? && j.value.Str?
  }

  predicate IsAnnotation(j: PJson)
  {
    j.Atom? && j.value.Annot?
  }

  predicate IsQuantity(j: PJson)
  {
    j.Atom? && j.value.Qty?
  }

  function DecodeLabels(j: PJson): Labels
  {
    var keys := FieldsWith(j, IsText);
    Tabulate(keys, k requires k in keys => j.fields[k].value.s)
  }

  function DecodeAnnotations(j: PJson): map<string, AnnotationText>
  {
    var keys := FieldsWith(j, IsAnnotation);
    Tabulate(keys, k requires k in keys => j.fields[k].value.text)
  }

  function DecodeList(j: PJson): ResourceList
  {
    var keys := FieldsWith(j, IsQuantity);
    Tabulate(keys, k requires k in keys => j.fields[k].value.q)
  }

  function DecodeResources(j: PJson): Resources
  {
    Resources(DecodeList(Field(j, "requests", Empty())), DecodeList(Field(j, "limits", Empty())))
  }

  function Items(j: PJson): seq<PJson>
  {
    if j.Arr? then j.items else []
  }

  function DecodeRule(j: PJson): ResizeRule
  {
    var restart := Field(j, "restartContainer", Null);
    ResizeRule(DecodeText(Field(j, "resourceName", Null)), restart.Atom? && restart.value.Flag? && restart.value.b)
  }

  function DecodeRules(j: PJson): seq<ResizeRule>
  {
    var items := Items(j);
    seq(|items|, i requires 0 <= i < |items| => DecodeRule(items[i]))
  }

  function DecodeContainer(j: PJson): Container
  {
    Container(
      DecodeText(Field(j, "name", Null)),
      DecodeResources(Field(j, "resources", Empty())),
      DecodeRules(Field(j, "resizePolicy", Arr([]))))
  }

  function DecodeContainers(j: PJson): seq<Container>
  {
    var items := Items(j);
    seq(|items|, i requires 0 <= i < |items| => DecodeContainer(items[i]))
  }

  function DecodeCondition(j: PJson): Condition
  {
    var time := Field(j, "lastTransitionTime", Null);
    Condition(DecodeText(Field(j, "type", Null)), DecodeText(Field(j, "status", Null)),
              if time.Atom? && time.value.Time? then time.value.t else 0)
  }

  function DecodeConditions(j: PJson): seq<Condition>
  {
    var items := Items(j);
    seq(|items|, i requires 0 <= i < |items| => DecodeCondition(items[i]))
  }

  /** Fields of an unexpected type count as absent. */
  function Decode(j: PJson): Pod
  {
    var metadata := Field(j, "metadata", Empty());
    var spec := Field(j, "spec", Empty());
    var status := Field(j, "status", Empty());
    var resources := Field(spec, "resources", Null);
    Pod(DecodeText(Field(metadata, "name", Null)),
        DecodeText(Field(metadata, "namespace", Null)),
        DecodeLabels(Field(metadata, "labels", Empty())),
        DecodeAnnotations(Field(metadata, "annotations", Empty())),
        DecodeContainers(Field(spec, "containers", Arr([]))),
        DecodeContainers(Field(spec, "initContainers", Arr([]))),
        if resources == Null then None else Some(DecodeResources(resources)),
        DecodeConditions(Field(status, "conditions", Arr([]))))
  }

  // ---------------------------------------------------------------------------
  // Decoding undoes encoding
  // ---------------------------------------------------------------------------

  /** A field that is left out when empty is found again, whatever stands next to it. */
  lemma OptionalField(base: map<string, PJson>, k: string, j: PJson, k': string, j': PJson, absent: PJson)
    requires k !in base && k != k' && (OmitEmpty(k, j) == map[] ==> j == absent)
    ensures Field(Obj(base + OmitEmpty(k, j) + OmitEmpty(k', j')), k, absent) == j
    ensures Field(Obj(base + OmitEmpty(k', j') + OmitEmpty(k, j)), k, absent) == j
  {
  }

  lemma ListRoundTrip(m: ResourceList)
    ensures DecodeList(EncodeList(m)) == m
  {
    assert FieldsWith(EncodeList(m), IsQuantity) == m.Keys;
  }

  lemma ResourcesFields(r: Resources)
    ensures Field(EncodeResources(r), "requests", Empty()) == EncodeList(r.requests)
    ensures Field(EncodeResources(r), "limits", Empty()) == EncodeList(r.limits)
  {
    var requests, limits := OmitEmpty("requests", EncodeList(r.requests)), OmitEmpty("limits", EncodeList(r.limits));
    assert requests + limits == map[] + requests + limits;
    OptionalField(map[], "requests", EncodeList(r.requests), "limits", EncodeList(r.limits), Empty());
    OptionalField(map[], "limits", EncodeList(r.limits), "requests", EncodeList(r.requests), Empty());
  }

  lemma ResourcesRoundTrip(r: Resources)
    ensures DecodeResources(EncodeResources(r)) == r
  {
    ResourcesFields(r);
    ListRoundTrip(r.requests);
    ListRoundTrip(r.limits);
  }

  lemma RulesRoundTrip(rules: seq<ResizeRule>)
    ensures DecodeRules(EncodeRules(rules)) == rules
  {
    var items := EncodeRules(rules).items;
    forall i | 0 <= i < |items|
      ensures DecodeRule(items[i]) == rules[i]
    {
    }
  }

  lemma ContainerFields(c: Container)
    ensures var j := EncodeContainer(c);
            && Field(j, "name", Null) == Text(c.name)
            && Field(j, "resources", Empty()) == EncodeResources(c.resources)
            && Field(j, "resizePolicy", Arr([])) == EncodeRules(c.resizePolicy)
  {
  }

  lemma ContainerRoundTrip(c: Container)
    ensures DecodeContainer(EncodeContainer(c)) == c
  {
    ContainerFields(c);
    ResourcesRoundTrip(c.resources);
    RulesRoundTrip(c.resizePolicy);
  }

  lemma ContainersRoundTrip(cs: seq<Container>)
    ensures DecodeContainers(EncodeContainers(cs)) == cs
  {
    forall i | 0 <= i < |cs|
      ensures DecodeContainer(EncodeContainers(cs).items[i]) == cs[i]
    {
      ContainerRoundTrip(cs[i]);
    }
  }

  lemma LabelsRoundTrip(m: Labels)
    ensures DecodeLabels(EncodeLabels(m)) == m
    ensures EncodeLabels(m) == Empty() <==> m == map[]
  {
    assert FieldsWith(EncodeLabels(m), IsText) == m.Keys;
    assert m != map[] ==> exists k :: k in m && k in EncodeLabels(m).fields;
  }

  lemma AnnotationsRoundTrip(m: map<string, AnnotationText>)
    ensures DecodeAnnotations(EncodeAnnotations(m)) == m
  {
    assert FieldsWith(EncodeAnnotations(m), IsAnnotation) == m.Keys;
  }

  lemma MetadataFields(p: Pod)
    ensures var m := EncodeMetadata(p);
            && Field(m, "name", Null) == Text(p.name)
            && Field(m, "namespace", Null) == Text(p.namespace)
            && Field(m, "labels", Empty()) == EncodeLabels(p.labels)
            && Field(m, "annotations", Empty()) == EncodeAnnotations(p.annotations)
  {
    var base := map["name" := Text(p.name), "namespace" := Text(p.namespace)];
    var labels, annotations := EncodeLabels(p.labels), EncodeAnnotations(p.annotations);
    OptionalField(base, "labels", labels, "annotations", annotations, Empty());
    OptionalField(base, "annotations", annotations, "labels", labels, Empty());
  }

  lemma MetadataRoundTrip(p: Pod)
    ensures var m := EncodeMetadata(p);
            && DecodeText(Field(m, "name", Null)) == p.name
            && DecodeText(Field(m, "namespace", Null)) == p.namespace
            && DecodeLabels(Field(m, "labels", Empty())) == p.labels
            && DecodeAnnotations(Field(m, "annotations", Empty())) == p.annotations
  {
    MetadataFields(p);
    LabelsRoundTrip(p.labels);
    AnnotationsRoundTrip(p.annotations);
  }

  lemma StatusRoundTrip(p: Pod)
    ensures DecodeConditions(Field(EncodeStatus(p), "conditions", Arr([]))) == p.conditions
  {
    var items := EncodeConditions(p.conditions).items;
    forall i | 0 <= i < |items|
      ensures DecodeCondition(items[i]) == p.conditions[i]
    {
    }
  }

  lemma SpecRoundTrip(p: Pod)
    ensures var spec := EncodeSpec(p);
            && DecodeContainers(Field(spec, "containers", Arr([]))) == p.containers
            && DecodeContainers(Field(spec, "initContainers", Arr([]))) == p.initContainers
            && var resources := Field(spec, "resources", Null);
               p.podResources == if resources == Null then None else Some(DecodeResources(resources))
  {
    var spec := EncodeSpec(p);
    assert Field(spec, "containers", Arr([])) == EncodeContainers(p.containers);
    assert Field(spec, "initContainers", Arr([])) == EncodeContainers(p.initContainers);
    ContainersRoundTrip(p.containers);
    ContainersRoundTrip(p.initContainers);
    if p.podResources.Some? {
      assert Field(spec, "resources", Null) == EncodeResources(p.podResources.value);
      ResourcesRoundTrip(p.podResources.value);
    }
  }

  lemma DecodeEncode(p: Pod)
    ensures Decode(Encode(p)) == p
  {
    var j := Encode(p);
    assert Field(j, "metadata", Empty()) == EncodeMetadata(p);
    assert Field(j, "spec", Empty()) == EncodeSpec(p);
    assert Field(j, "status", Empty()) == EncodeStatus(p);
    MetadataRoundTrip(p);
    SpecRoundTrip(p);
    StatusRoundTrip(p);
  }

  lemma ObjectNullFree(j: PJson)
    requires j.Obj? && forall k :: k in j.fields ==> j.fields[k] != Null && NullFree(j.fields[k])
    ensures NullFree(j)
  {
  }

  lemma MapsNullFree(m: ResourceList, labels: Labels, annotations: map<string, AnnotationText>)
    ensures NullFree(EncodeList(m)) && NullFree(EncodeLabels(labels)) && NullFree(EncodeAnnotations(annotations))
  {
    ObjectNullFree(EncodeList(m));
    ObjectNullFree(EncodeLabels(labels));
    ObjectNullFree(EncodeAnnotations(annotations));
  }

  lemma ResourcesNullFree(r: Resources)
    ensures NullFree(EncodeResources(r))
  {
    MapsNullFree(r.requests, map[], map[]);
    MapsNullFree(r.limits, map[], map[]);
    ObjectNullFree(EncodeResources(r));
  }

  /** Putting null-free parts side by side. */
  lemma MergeNullFree(m: map<string, PJson>, k: string, j: PJson)
    requires NullFree(Obj(m)) && j != Null && NullFree(j)
    ensures NullFree(Obj(m + OmitEmpty(k, j)))
  {
    ObjectNullFree(Obj(m + OmitEmpty(k, j)));
  }

  lemma MetadataNullFree(p: Pod)
    ensures NullFree(EncodeMetadata(p))
  {
    MapsNullFree(map[], p.labels, p.annotations);
    var base := map["name" := Text(p.name), "namespace" := Text(p.namespace)];
    ObjectNullFree(Obj(base));
    MergeNullFree(base, "labels", EncodeLabels(p.labels));
    MergeNullFree(base + OmitEmpty("labels", EncodeLabels(p.labels)), "annotations", EncodeAnnotations(p.annotations));
  }

  /** One more null-free field. */
  lemma FieldNullFree(m: map<string, PJson>, k: string, j: PJson)
    requires NullFree(Obj(m)) && j != Null && NullFree(j)
    ensures NullFree(Obj(m + map[k := j]))
  {
    ObjectNullFree(Obj(m + map[k := j]));
  }

  lemma ContainersNullFree(cs: seq<Container>)
    ensures NullFree(EncodeContainers(cs))
  {
  }

  lemma SpecNullFree(p: Pod)
    ensures NullFree(EncodeSpec(p))
  {
    var containers, inits := EncodeContainers(p.containers), EncodeContainers(p.initContainers);
    ContainersNullFree(p.containers);
    ContainersNullFree(p.initContainers);
    ObjectNullFree(Obj(map["containers" := containers]));
    MergeNullFree(map["containers" := containers], "initContainers", inits);
    var base := map["containers" := containers] + OmitEmpty("initContainers", inits);
    match p.podResources
    case None =>
      assert base + map[] == base;
    case Some(r) =>
      ResourcesNullFree(r);
      FieldNullFree(base, "resources", EncodeResources(r));
  }

  lemma ThreeNullFree(a: PJson, b: PJson, c: PJson)
    requires a != Null && NullFree(a) && b != Null && NullFree(b) && c != Null && NullFree(c)
    ensures NullFree(Obj(map["metadata" := a, "spec" := b, "status" := c]))
  {
    ObjectNullFree(Obj(map["metadata" := a, "spec" := b, "status" := c]));
  }

  lemma EncodeIsNullFree(p: Pod)
    ensures NullFree(Encode(p))
  {
    MetadataNullFree(p);
    SpecNullFree(p);
    ObjectNullFree(EncodeStatus(p));
    ThreeNullFree(EncodeMetadata(p), EncodeSpec(p), EncodeStatus(p));
  }
}
