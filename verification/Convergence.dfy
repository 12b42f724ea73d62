/**
 What the global boost controller works towards, as a property of a cluster state.
 */
module Convergence {
  import opened Wrappers
  import opened Selectors
  import opened Names
  import opened Cluster

  /** The global boost is meant to reach the namespace. */
  predicate Selected(s: State, gb: GlobalBoost, ns: string)
  {
    ns in s.namespaces && !s.namespaces[ns].terminating && Matches(gb.namespaceSelector, s.namespaces[ns].labels)
  }

  /** The namespace has a boost that is not a child of `g`. */
  ghost predicate Foreign(s: State, g: string, ns: string)
  {
    exists k :: k in s.boosts && k.namespace == ns && s.boosts[k].managedBy != Some(g)
  }

  ghost predicate Desired(s: State, g: string, gb: GlobalBoost, ns: string)
  {
    Selected(s, gb, ns) && !Foreign(s, g, ns)
  }

  /** The children of `g` are exactly one per desired namespace, each as the template says. */
  ghost predicate ChildrenExact(s: State, g: string, gb: GlobalBoost)
  {
    && (forall k :: ManagedBy(s, k, g) <==> k.name == ChildName(g) && Desired(s, g, gb, k.namespace))
    && (forall k :: ManagedBy(s, k, g) ==> s.boosts[k].content == gb.template)
  }

  /** Conversion to a 32-bit integer, which wraps around. */
  function Int32(n: int): int
  {
    (n + 0x8000_0000) % 0x1_0000_0000 - 0x8000_0000
  }

  /** The status that describes the state. */
  ghost predicate StatusExact(s: State, g: string, gb: GlobalBoost, status: Status)
  {
    && Sorted(status.active) && Sorted(status.skipped)
    && (forall ns :: ns in status.active <==> Desired(s, g, gb, ns))
    && (forall ns :: ns in status.skipped <==> Selected(s, gb, ns) && Foreign(s, g, ns))
    && status.count == Int32(|status.active|)
    && status.ready == Some(status.active != [])
  }

  /** Nothing is left to do for `g`. */
  ghost predicate Converged(s: State, g: string)
  {
    && g in s.globals
    && s.globals[g].finalizer && !s.globals[g].deleting && Parses(s.globals[g].namespaceSelector)
    && ChildrenExact(s, g, s.globals[g])
    && StatusExact(s, g, s.globals[g], s.globals[g].status)
  }

  /** The status is determined by the state. */
  lemma StatusUnique(s: State, g: string, gb: GlobalBoost, a: Status, b: Status)
    requires StatusExact(s, g, gb, a) && StatusExact(s, g, gb, b)
    ensures a == b
  {
    SortedUnique(a.active, b.active);
    SortedUnique(a.skipped, b.skipped);
  }

  /** Active and skipped namespaces are disjoint and together are the selected ones. */
  lemma StatusPartitions(s: State, g: string, gb: GlobalBoost, status: Status)
    requires StatusExact(s, g, gb, status)
    ensures forall ns :: ns in status.active ==> ns !in status.skipped
    ensures forall ns :: ns in status.active || ns in status.skipped <==> Selected(s, gb, ns)
  {
    assert forall ns :: Selected(s, gb, ns) <==> Desired(s, g, gb, ns) || (Selected(s, gb, ns) && Foreign(s, g, ns));
  }
}
