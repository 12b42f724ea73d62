/**
 The event mappings: which global boosts are reconciled when a namespace or a boost
 changes, and why that is enough.
 */
module Watches {
  import opened Selectors
  import opened NamespacedObjects
  import opened Cluster
  import opened Convergence

  /** The global boosts whose namespace selector matches the labels. */
  function Targeting(s: State, labels: Labels): set<string>
  {
    set g | g in s.globals && Parses(s.globals[g].namespaceSelector) && Matches(s.globals[g].namespaceSelector, labels)
  }

  method MatchingGlobalBoosts(s: State, labels: Labels) returns (requests: seq<string>)
    ensures forall g :: g in requests <==> g in Targeting(s, labels)
  {
    requests := [];
    var left := s.globals.Keys;
    while left != {}
      invariant left <= s.globals.Keys
      invariant forall g :: g in requests <==> g in Targeting(s, labels) && g !in left
    {
      var g :| g in left;
      left := left - {g};
      var selector := s.globals[g].namespaceSelector;
      if Parses(selector) && Matches(selector, labels) {
        requests := requests + [g];
      }
    }
  }

  /**
   The mapping of a namespace event, on the labels of the object it carries; nobody if
   listing the global boosts fails.
   */
  method MapNamespaceToGlobalBoosts(s: State, namespace: Namespace, lists: bool) returns (requests: seq<string>)
    ensures forall g :: g in requests <==> lists && g in Targeting(s, namespace.labels)
  {
    if !lists {
      return [];
    }
    requests := MatchingGlobalBoosts(s, namespace.labels);
  }

  /** The mapping of a boost event; nobody if its namespace is gone or one of the two calls fails. */
  method MapBoostToGlobalBoosts(s: State, k: Key, gets: bool, lists: bool) returns (requests: seq<string>)
    ensures forall g :: g in requests <==>
              gets && lists && k.namespace in s.namespaces && g in Targeting(s, s.namespaces[k.namespace].labels)
  {
    if !gets || k.namespace !in s.namespaces || !lists {
      return [];
    }
    requests := MatchingGlobalBoosts(s, s.namespaces[k.namespace].labels);
  }

  // ---------------------------------------------------------------------------
  // Completeness
  // ---------------------------------------------------------------------------

  /** The one object that an event is about. */
  datatype Change =
    | NamespaceChange(namespace: string)
    | BoostChange(key: Key)
    | GlobalChange(name: string)

  /** `s'` differs from `s` at most in the object of the change. */
  ghost predicate IsChange(s: State, s': State, change: Change)
  {
    match change
    case NamespaceChange(ns) =>
      s'.boosts == s.boosts && s'.globals == s.globals && s'.namespaces - {ns} == s.namespaces - {ns}
    case BoostChange(k) =>
      s'.namespaces == s.namespaces && s'.globals == s.globals && s'.boosts - {k} == s.boosts - {k}
    case GlobalChange(h) =>
      s'.namespaces == s.namespaces && s'.boosts == s.boosts && s'.globals - {h} == s.globals - {h}
  }

  /**
   `g` is reconciled because of the change: its mapping is applied to the old and to the
   new object. `mapped` says that the calls of the mapping succeed.
   */
  ghost predicate Enqueued(s: State, s': State, change: Change, g: string, mapped: bool)
  {
    match change
    case NamespaceChange(ns) =>
      mapped && (|| (ns in s.namespaces && g in Targeting(s', s.namespaces[ns].labels))
                 || (ns in s'.namespaces && g in Targeting(s', s'.namespaces[ns].labels)))
    case BoostChange(k) =>
      mapped && k.namespace in s'.namespaces && g in Targeting(s', s'.namespaces[k.namespace].labels)
    case GlobalChange(h) =>
      h == g
  }

  lemma NamespaceEventsComplete(s: State, s': State, ns: string, g: string)
    requires Converged(s, g) && IsChange(s, s', NamespaceChange(ns))
    requires !Enqueued(s, s', NamespaceChange(ns), g, true)
    ensures Converged(s', g)
  {
    var gb := s.globals[g];
    forall n
      ensures Selected(s', gb, n) <==> Selected(s, gb, n)
    {
      if n != ns {
        assert n in s.namespaces <==> n in s.namespaces - {ns};
        assert n in s'.namespaces <==> n in s'.namespaces - {ns};
        assert n in s.namespaces ==> s.namespaces[n] == (s.namespaces - {ns})[n];
        assert n in s'.namespaces ==> s'.namespaces[n] == (s'.namespaces - {ns})[n];
      }
    }
    assert forall n :: Foreign(s', g, n) <==> Foreign(s, g, n);
    assert forall n :: Desired(s', g, gb, n) <==> Desired(s, g, gb, n);
    assert forall k :: ManagedBy(s', k, g) <==> ManagedBy(s, k, g);
  }

  lemma BoostEventsComplete(s: State, s': State, k: Key, g: string)
    requires Converged(s, g) && IsChange(s, s', BoostChange(k))
    requires ManagedBy(s', k, g) ==> ManagedBy(s, k, g)
    requires !Enqueued(s, s', BoostChange(k), g, true)
    ensures Converged(s', g)
  {
    var gb := s.globals[g];
    assert !Selected(s, gb, k.namespace);
    assert forall n :: Selected(s', gb, n) <==> Selected(s, gb, n);
    forall k'
      ensures k' != k ==> (k' in s'.boosts <==> k' in s.boosts)
      ensures k' != k && k' in s.boosts ==> s'.boosts[k'] == s.boosts[k']
    {
      assert k' in s.boosts - {k} <==> k' in s.boosts && k' != k;
      assert k' in s'.boosts - {k} <==> k' in s'.boosts && k' != k;
      assert k' in s.boosts - {k} ==> (s.boosts - {k})[k'] == (s'.boosts - {k})[k'];
    }
    forall n | n != k.namespace
      ensures Foreign(s', g, n) <==> Foreign(s, g, n)
    {
    }
    assert forall n :: Desired(s', g, gb, n) <==> Desired(s, g, gb, n);
    assert !ManagedBy(s, k, g) && !ManagedBy(s', k, g);
    assert forall k' :: ManagedBy(s', k', g) <==> ManagedBy(s, k', g);
  }

  lemma GlobalEventsComplete(s: State, s': State, h: string, g: string)
    requires Converged(s, g) && IsChange(s, s', GlobalChange(h)) && h != g
    ensures Converged(s', g)
  {
    assert g in s'.globals - {h};
    assert s'.globals[g] == s.globals[g];
    var gb := s.globals[g];
    assert forall n :: Selected(s', gb, n) <==> Selected(s, gb, n);
    assert forall n :: Foreign(s', g, n) <==> Foreign(s, g, n);
    assert forall n :: Desired(s', g, gb, n) <==> Desired(s, g, gb, n);
    assert forall k :: ManagedBy(s', k, g) <==> ManagedBy(s, k, g);
  }

  /**
   The watches miss nothing: when nothing is left to do for `g` and one object changes
   without `g` being reconciled for it, then still nothing is left to do for `g`. The
   change must not forge a child of `g`, and the calls of the mapping must succeed.
   */
  lemma WatchesComplete(s: State, s': State, change: Change, g: string)
    requires Converged(s, g) && IsChange(s, s', change)
    requires forall k :: ManagedBy(s', k, g) ==> ManagedBy(s, k, g)
    requires !Enqueued(s, s', change, g, true)
    ensures Converged(s', g)
  {
    match change
    case NamespaceChange(ns) => NamespaceEventsComplete(s, s', ns, g);
    case BoostChange(k) => BoostEventsComplete(s, s', k, g);
    case GlobalChange(h) => GlobalEventsComplete(s, s', h, g);
  }

  /**
   A mapping whose call fails can miss something: a namespace appears that `g` selects,
   `g` is not reconciled for it, and its child is missing.
   */
  lemma FailedMappingMisses(s: State, ns: string, namespace: Namespace, g: string)
    requires Converged(s, g) && ns !in s.namespaces && !Foreign(s, g, ns)
    requires !namespace.terminating && Matches(s.globals[g].namespaceSelector, namespace.labels)
    ensures var s' := s.(namespaces := s.namespaces[ns := namespace]);
            && IsChange(s, s', NamespaceChange(ns))
            && !Enqueued(s, s', NamespaceChange(ns), g, false) && Enqueued(s, s', NamespaceChange(ns), g, true)
            && !Converged(s', g)
  {
    var s' := s.(namespaces := s.namespaces[ns := namespace]);
    assert s'.namespaces - {ns} == s.namespaces - {ns};
    var k := Key(ns, ChildName(g));
    assert !ManagedBy(s, k, g) by {
      assert ManagedBy(s, k, g) <==> k.name == ChildName(g) && Desired(s, g, s.globals[g], k.namespace);
    }
    assert Desired(s', g, s'.globals[g], ns) && !ManagedBy(s', k, g);
  }
}
