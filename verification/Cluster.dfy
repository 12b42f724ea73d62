/**
 The cluster as the global boost controller sees it: namespaces, boosts and global
 boosts behind an API that can fail, shared with users who act at any moment.

 A call that reports a failure may or may not have taken effect. Users may do anything
 except put the managed-by label on a boost or take the controller's finalizer off a
 global boost.
 */
module Cluster {
  import opened Wrappers
  import opened Selectors
  import opened NamespacedObjects
  import opened Tracker

  const CHILD_PREFIX := "global-"

  /** The part of a boost that the template of a global boost prescribes. */
  datatype Template = Template(
    selector: Selector,
    containerPolicies: seq<PolicySpec>,
    fixedDuration: Option<int>,
    podCondition: Option<PodCondition>)

  /** `managedBy` is the value of the managed-by label. */
  datatype Boost = Boost(managedBy: Option<string>, globalUid: Option<string>, content: Template)

  datatype Namespace = Namespace(labels: Labels, terminating: bool)

  datatype Status = Status(count: int, active: seq<string>, skipped: seq<string>, ready: Option<bool>)

  datatype GlobalBoost = GlobalBoost(
    uid: string,
    deleting: bool,
    finalizer: bool,
    namespaceSelector: Selector,
    template: Template,
    status: Status)

  datatype State = State(
    namespaces: map<string, Namespace>,
    boosts: map<Key, Boost>,
    globals: map<string, GlobalBoost>)

  function ChildName(g: string): string
  {
    CHILD_PREFIX + g
  }

  lemma ChildNameInjective(g: string, h: string)
    requires ChildName(g) == ChildName(h)
    ensures g == h
  {
    assert ChildName(g)[|CHILD_PREFIX|..] == g;
    assert ChildName(h)[|CHILD_PREFIX|..] == h;
  }

  predicate ManagedBy(s: State, k: Key, g: string)
  {
    k in s.boosts && s.boosts[k].managedBy == Some(g)
  }

  // ---------------------------------------------------------------------------
  // What is always true
  // ---------------------------------------------------------------------------

  /** A managed boost has the name of its global boost's children. */
  ghost predicate ChildrenNamed(s: State)
  {
    forall k, g :: ManagedBy(s, k, g) ==> k.name == ChildName(g)
  }

  /** No leak: a managed boost has its global boost, and that still carries the finalizer. */
  ghost predicate NoLeak(s: State)
  {
    forall k, g :: ManagedBy(s, k, g) ==> g in s.globals && s.globals[g].finalizer
  }

  /** The managed boosts of the namespace belong to one global boost. */
  ghost predicate OneOwner(s: State, ns: string)
  {
    forall k, k', g, g' :: ManagedBy(s, k, g) && ManagedBy(s, k', g') && k.namespace == ns && k'.namespace == ns ==>
        g == g'
  }

  ghost predicate ExclusiveOwner(s: State)
  {
    forall ns {:trigger OneOwner(s, ns)} :: OneOwner(s, ns)
  }

  /** So a namespace has at most one managed boost. */
  lemma AtMostOneChild(s: State, k: Key, k': Key, g: string, g': string)
    requires Inv(s) && ManagedBy(s, k, g) && ManagedBy(s, k', g') && k.namespace == k'.namespace
    ensures k == k' && g == g'
  {
    assert OneOwner(s, k.namespace);
  }

  /** Without new managed boosts the ownership stays exclusive. */
  lemma OwnersKept(s: State, s': State)
    requires ExclusiveOwner(s) && forall k, h :: ManagedBy(s', k, h) ==> ManagedBy(s, k, h)
    ensures ExclusiveOwner(s')
  {
    forall ns
      ensures OneOwner(s', ns)
    {
      assert OneOwner(s, ns);
    }
  }

  ghost predicate Inv(s: State)
  {
    ChildrenNamed(s) && NoLeak(s) && ExclusiveOwner(s) && "" !in s.globals
  }

  /** What users may do between any two calls of the controller. */
  predicate UserMay(s: State, s': State)
  {
    && (forall k :: k in s'.boosts && s'.boosts[k].managedBy.Some? ==>
          k in s.boosts && s.boosts[k].managedBy == s'.boosts[k].managedBy)
    && (forall g :: g in s.globals && s.globals[g].finalizer ==> g in s'.globals && s'.globals[g].finalizer)
    && "" !in s'.globals
  }

  lemma UserKeepsInv(s: State, s': State)
    requires Inv(s) && UserMay(s, s')
    ensures Inv(s')
  {
    assert forall k, g :: ManagedBy(s', k, g) ==> ManagedBy(s, k, g);
    OwnersKept(s, s');
  }

  /** No boost in the namespace is managed by another global boost. */
  ghost predicate OwnedBy(s: State, ns: string, g: string)
  {
    forall k, h :: ManagedBy(s, k, h) && k.namespace == ns ==> h == g
  }

  ghost predicate NoChildren(s: State, g: string)
  {
    forall k :: !ManagedBy(s, k, g)
  }

  ghost predicate HasFinalizer(s: State, g: string)
  {
    g in s.globals && s.globals[g].finalizer
  }

  /** These facts survive whatever users do. */
  lemma UserKeepsFacts(s: State, s': State, ns: string, g: string)
    requires UserMay(s, s')
    ensures OwnedBy(s, ns, g) ==> OwnedBy(s', ns, g)
    ensures NoChildren(s, g) ==> NoChildren(s', g)
    ensures HasFinalizer(s, g) ==> HasFinalizer(s', g)
  {
    assert forall k, h :: ManagedBy(s', k, h) ==> ManagedBy(s, k, h);
  }

  // ---------------------------------------------------------------------------
  // The writes of the controller keep it
  // ---------------------------------------------------------------------------

  lemma CreateKeepsInv(s: State, k: Key, b: Boost, g: string)
    requires Inv(s) && k !in s.boosts && b.managedBy == Some(g) && k.name == ChildName(g)
    requires HasFinalizer(s, g) && OwnedBy(s, k.namespace, g)
    ensures Inv(s.(boosts := s.boosts[k := b]))
  {
    var s' := s.(boosts := s.boosts[k := b]);
    assert forall k', h :: ManagedBy(s', k', h) ==> ManagedBy(s, k', h) || (k' == k && h == g);
    forall ns
      ensures OneOwner(s', ns)
    {
      assert OneOwner(s, ns);
    }
  }

  lemma UpdateKeepsInv(s: State, k: Key, b: Boost)
    requires Inv(s) && k in s.boosts && b.managedBy == s.boosts[k].managedBy
    ensures Inv(s.(boosts := s.boosts[k := b]))
  {
    var s' := s.(boosts := s.boosts[k := b]);
    assert forall k', h :: ManagedBy(s', k', h) <==> ManagedBy(s, k', h);
    OwnersKept(s, s');
  }

  lemma DeleteKeepsInv(s: State, k: Key)
    requires Inv(s)
    ensures Inv(s.(boosts := s.boosts - {k}))
  {
    var s' := s.(boosts := s.boosts - {k});
    assert forall k', h :: ManagedBy(s', k', h) ==> ManagedBy(s, k', h);
    OwnersKept(s, s');
  }

  /** Changing or removing a global boost is harmless if it keeps its finalizer or has no children. */
  lemma GlobalKeepsInv(s: State, g: string, s': State)
    requires Inv(s) && g in s.globals && s'.boosts == s.boosts
    requires s'.globals - {g} == s.globals - {g} && "" !in s'.globals
    requires NoChildren(s, g) || (HasFinalizer(s, g) ==> HasFinalizer(s', g))
    ensures Inv(s')
  {
    assert forall k', h :: ManagedBy(s', k', h) <==> ManagedBy(s, k', h);
    OwnersKept(s, s');
    forall h | h in s.globals && h != g
      ensures h in s'.globals && s'.globals[h] == s.globals[h]
    {
      assert h in s.globals - {g};
    }
  }
}
