/**
 The controller that distributes global boosts over namespaces.

 Every method keeps the cluster invariant and a good log of writes whatever users do
 meanwhile and whichever calls fail. What a method achieves is stated for the case that
 users did nothing during it, and where needed that no call failed. Whether they do is
 fixed by the script of the API server.
 */
module GlobalBoostController {
  import opened Wrappers
  import opened Selectors
  import opened NamespacedObjects
  import opened Names
  import opened Cluster
  import opened ClusterApi
  import opened ClusterLog
  import opened Convergence

  /** Under the key there is a child of `g`, or nothing, in both states, or they agree. */
  ghost predicate KeptAt(s: State, s': State, g: string, k: Key)
  {
    (k in s.boosts && s.boosts[k].managedBy != Some(g)) || (k in s'.boosts && s'.boosts[k].managedBy != Some(g)) ==>
      k in s.boosts && k in s'.boosts && s'.boosts[k] == s.boosts[k]
  }

  /** Only children of `g` differ between the two states. */
  ghost predicate Kept(s: State, s': State, g: string)
  {
    && s'.namespaces == s.namespaces
    && s'.globals == s.globals
    && (forall k {:trigger KeptAt(s, s', g, k)} :: KeptAt(s, s', g, k))
  }

  lemma KeptTransitive(s: State, s': State, s'': State, g: string)
    requires Kept(s, s', g) && Kept(s', s'', g)
    ensures Kept(s, s'', g)
  {
    forall k
      ensures KeptAt(s, s'', g, k)
    {
      assert KeptAt(s, s', g, k) && KeptAt(s', s'', g, k);
    }
  }

  lemma KeptForeign(s: State, s': State, g: string, ns: string)
    requires Kept(s, s', g)
    ensures Foreign(s', g, ns) <==> Foreign(s, g, ns)
  {
    if Foreign(s, g, ns) {
      var k :| k in s.boosts && k.namespace == ns && s.boosts[k].managedBy != Some(g);
      assert KeptAt(s, s', g, k);
    }
    if Foreign(s', g, ns) {
      var k :| k in s'.boosts && k.namespace == ns && s'.boosts[k].managedBy != Some(g);
      assert KeptAt(s, s', g, k);
    }
  }

  function ChildKey(g: string, ns: string): Key
  {
    Key(ns, ChildName(g))
  }

  function BuildChildBoost(g: string, gb: GlobalBoost): Boost
  {
    Boost(Some(g), Some(gb.uid), gb.template)
  }

  /** The child of `g` in the namespace is there and as it should be. */
  ghost predicate ChildUpToDate(s: State, g: string, gb: GlobalBoost, ns: string)
  {
    ManagedBy(s, ChildKey(g, ns), g) && s.boosts[ChildKey(g, ns)].content == gb.template
  }

  /** The namespace is as the controller wants it. */
  ghost predicate Settled(s: State, g: string, gb: GlobalBoost, ns: string)
  {
    if Foreign(s, g, ns) then !ManagedBy(s, ChildKey(g, ns), g) else ChildUpToDate(s, g, gb, ns)
  }

  /** At most the child of `g` in the one namespace differs. */
  ghost predicate OnlyChild(s: State, s': State, g: string, ns: string)
  {
    Kept(s, s', g) && s'.boosts - {ChildKey(g, ns)} == s.boosts - {ChildKey(g, ns)}
  }

  /** Whether the namespace has a boost that `g` does not manage; nothing if the listing failed. */
  method HasUnmanagedBoosts(api: ApiServer, g: string, ns: string) returns (r: Option<bool>)
    requires api.Valid() && g != ""
    modifies api`namespaces, api`boosts, api`globals, api`clock, api`meddling, api`faults
    ensures api.Valid() && api.clock == old(api.clock) + 1
    ensures api.Now() == UsersTurn(api.script(old(api.clock)), old(api.Now())) && UserMay(old(api.Now()), api.Now())
    ensures api.meddling >= old(api.meddling) && (api.meddling == old(api.meddling) ==> api.Now() == old(api.Now()))
    ensures api.faults == old(api.faults) + (if r.None? then 1 else 0) &&
            (r.None? <==> api.script(old(api.clock)).fails)
    ensures r.Some? ==> (r.value <==> Foreign(api.Now(), g, ns))
    ensures r == Some(false) ==> OwnedBy(api.Now(), ns, g)
  {
    var listed := api.ListBoosts(ns);
    if listed.None? {
      return None;
    }
    var left := listed.value.Keys;
    while left != {}
      invariant left <= listed.value.Keys
      invariant forall k :: k in listed.value && k !in left ==> listed.value[k].managedBy == Some(g)
    {
      var k :| k in left;
      if listed.value[k].managedBy.GetOr("") != g {
        assert k in api.boosts && k.namespace == ns;
        return Some(true);
      }
      left := left - {k};
    }
    assert forall k :: k in api.boosts && k.namespace == ns ==> k in listed.value;
    return Some(false);
  }

  datatype EnsureResult = Ensured | NotManaged | CallFailed

  /** Something is under the child name in the namespace that is no child of `g`. */
  predicate Occupied(s: State, g: string, ns: string)
  {
    ChildKey(g, ns) in s.boosts && s.boosts[ChildKey(g, ns)].managedBy != Some(g)
  }

  /** If the child name is occupied although it was not before, users put an unlabelled boost there. */
  lemma OccupiedBySwap(t: Turn, s: State, g: string, ns: string)
    requires Inv(UsersTurn(t, s)) && !Foreign(s, g, ns) && Occupied(UsersTurn(t, s), g, ns)
    ensures Swaps(t, ChildKey(g, ns))
  {
    LabelOfChildName(UsersTurn(t, s), ChildKey(g, ns), g);
  }

  /** Creates or updates the child in the namespace. */
  method EnsureChild(api: ApiServer, g: string, gb: GlobalBoost, ns: string) returns (r: EnsureResult)
    requires api.Valid() && g != "" && HasFinalizer(api.Now(), g) && OwnedBy(api.Now(), ns, g)
    modifies api
    ensures api.Valid() && HasFinalizer(api.Now(), g) && api.clock > old(api.clock)
    ensures api.meddling >= old(api.meddling) && api.faults >= old(api.faults) && old(api.log) <= api.log
    ensures Traced(api.script, api.start, old(api.Now()), |old(api.log)|, api.Now(), api.log, g)
    ensures r.NotManaged? <==>
              && !api.script(old(api.clock)).fails
              && Occupied(UsersTurn(api.script(old(api.clock)), old(api.Now())), g, ns)
    ensures r.NotManaged? && !old(Foreign(api.Now(), g, ns)) ==> Swaps(api.script(old(api.clock)), ChildKey(g, ns))
    ensures api.meddling == old(api.meddling) && !old(Foreign(api.Now(), g, ns)) ==>
              && r != NotManaged
              && OnlyChild(old(api.Now()), api.Now(), g, ns)
              && (r.Ensured? ==> ChildUpToDate(api.Now(), g, gb, ns))
              && (r.Ensured? <==> api.faults == old(api.faults))
    ensures api.meddling == old(api.meddling) && api.faults == old(api.faults) &&
            old(ChildUpToDate(api.Now(), g, gb, ns)) ==>
              api.Now() == old(api.Now()) && api.log == old(api.log)
  {
    var key := ChildKey(g, ns);
    var desired := BuildChildBoost(g, gb);
    var fetched := api.GetBoost(key);
    ghost var got, log0 := api.Now(), api.log;
    UserKeepsFacts(old(api.Now()), got, ns, g);
    TracedNothing(api.script, api.start, old(api.Now()), got, log0, g);
    match fetched
    case Missing =>
      r := CreateChild(api, g, ns, desired);
      TracedTransitive(api.script, api.start, old(api.Now()), |log0|, got, log0, api.Now(), api.log, g);
    case Unavailable =>
      r := CallFailed;
    case Found(existing) =>
      if existing.managedBy.GetOr("") != g {
        r := NotManaged;
        if !old(Foreign(api.Now(), g, ns)) {
          OccupiedBySwap(api.script(old(api.clock)), old(api.Now()), g, ns);
        }
      } else if existing.content != desired.content {
        r := UpdateChild(api, g, ns, existing, desired);
        TracedTransitive(api.script, api.start, old(api.Now()), |log0|, got, log0, api.Now(), api.log, g);
      } else {
        r := Ensured;
      }
  }

  method CreateChild(api: ApiServer, g: string, ns: string, desired: Boost) returns (r: EnsureResult)
    requires api.Valid() && HasFinalizer(api.Now(), g) && OwnedBy(api.Now(), ns, g)
    requires desired.managedBy == Some(g)
    modifies api
    ensures api.Valid() && HasFinalizer(api.Now(), g) && api.clock == old(api.clock) + 1
    ensures api.meddling >= old(api.meddling) && api.faults >= old(api.faults) && old(api.log) <= api.log
    ensures Traced(api.script, api.start, old(api.Now()), |old(api.log)|, api.Now(), api.log, g)
    ensures r != NotManaged
    ensures api.meddling == old(api.meddling) && ChildKey(g, ns) !in old(api.boosts) ==>
              OnlyChild(old(api.Now()), api.Now(), g, ns) && (r.Ensured? <==> api.faults == old(api.faults))
    ensures r.Ensured? ==> At(api.Now(), ChildKey(g, ns)) == Some(desired)
  {
    var ok, found := api.CreateBoost(ChildKey(g, ns), desired, g);
    UserKeepsFacts(old(api.Now()), found, ns, g);
    TracedWrite(api.script, api.start, old(api.Now()), found, api.Now(), old(api.log),
                Create(ChildKey(g, ns), desired, api.clock), g);
    return if ok then Ensured else CallFailed;
  }

  method UpdateChild(api: ApiServer, g: string, ns: string, existing: Boost, desired: Boost) returns (r: EnsureResult)
    requires api.Valid() && HasFinalizer(api.Now(), g)
    requires existing.managedBy == Some(g)
    modifies api
    ensures api.Valid() && HasFinalizer(api.Now(), g) && api.clock == old(api.clock) + 1
    ensures api.meddling >= old(api.meddling) && api.faults >= old(api.faults) && old(api.log) <= api.log
    ensures Traced(api.script, api.start, old(api.Now()), |old(api.log)|, api.Now(), api.log, g)
    ensures r != NotManaged
    ensures api.meddling == old(api.meddling) ==> OnlyChild(old(api.Now()), api.Now(), g, ns)
    ensures api.meddling == old(api.meddling) && old(At(api.Now(), ChildKey(g, ns))) == Some(existing) ==>
              (r.Ensured? <==> api.faults == old(api.faults))
    ensures r.Ensured? ==> At(api.Now(), ChildKey(g, ns)) == Some(existing.(content := desired.content))
  {
    var b := existing.(content := desired.content);
    var ok, found := api.UpdateBoost(ChildKey(g, ns), existing, b);
    UserKeepsFacts(old(api.Now()), found, ns, g);
    TracedWrite(api.script, api.start, old(api.Now()), found, api.Now(), old(api.log),
                Update(ChildKey(g, ns), existing, b, api.clock), g);
    return if ok then Ensured else CallFailed;
  }

  lemma UserAddsNoChildren(s: State, s': State, g: string)
    requires UserMay(s, s')
    ensures forall k :: ManagedBy(s', k, g) ==> ManagedBy(s, k, g)
  {
  }

  /** One delete call for a child of `g` that was read before. */
  method DeleteChild(api: ApiServer, g: string, k: Key, ghost read: Boost, ghost readAt: nat)
      returns (ok: bool, ghost found: State)
    requires api.Valid() && HasFinalizer(api.Now(), g) && k.name == ChildName(g) && read.managedBy == Some(g)
    requires Watched(api.script, api.start, api.log, readAt, api.clock, api.Now(), k, read)
    modifies api
    ensures api.Valid() && HasFinalizer(api.Now(), g) && api.clock == old(api.clock) + 1
    ensures api.meddling >= old(api.meddling)
    ensures api.faults == old(api.faults) + (if ok then 0 else 1) && (ok <==> !api.script(old(api.clock)).fails)
    ensures found == UsersTurn(api.script(old(api.clock)), old(api.Now())) && UserMay(old(api.Now()), found)
    ensures api.meddling == old(api.meddling) ==> found == old(api.Now())
    ensures api.Now() == (if ok || api.script(old(api.clock)).applied
              then found.(boosts := found.boosts - {k}) else found)
    ensures api.log == old(api.log) + [Delete(k, read, At(found, k), readAt, api.clock)]
    ensures GoodWrite(api.script, api.start, old(api.log), api.log[|old(api.log)|], g)
  {
    WatchedTurn(api.script, api.start, api.log, readAt, api.clock, api.Now(), k, read);
    UserKeepsInv(api.Now(), UsersTurn(api.script(api.clock), api.Now()));
    ok, found := api.DeleteBoost(k, read, readAt);
    UserKeepsFacts(old(api.Now()), found, "", g);
    if k in found.boosts {
      LabelOfChildName(found, k, g);
    }
  }

  /** What deleting the child in a skipped namespace leaves, call by call. */
  function AfterDeleteIfExists(script: Script, clock: nat, s: State, k: Key): State
  {
    var read := UsersTurn(script(clock), s);
    if script(clock).fails || k !in read.boosts || read.boosts[k].managedBy.None? then read
    else
      var found := UsersTurn(script(clock + 1), read);
      if !script(clock + 1).fails || script(clock + 1).applied then found.(boosts := found.boosts - {k}) else found
  }

  /** The deletion of a child that was just fetched. */
  method DeleteFetched(api: ApiServer, g: string, k: Key, ghost read: Boost, ghost s0: State)
    requires api.Valid() && HasFinalizer(api.Now(), g) && k.name == ChildName(g)
    requires At(api.Now(), k) == Some(read) && read.managedBy == Some(g)
    requires Traced(api.script, api.start, s0, |api.log|, api.Now(), api.log, g)
    modifies api
    ensures api.Valid() && HasFinalizer(api.Now(), g) && api.clock == old(api.clock) + 1 && old(api.log) <= api.log
    ensures api.meddling >= old(api.meddling)
    ensures api.faults == old(api.faults) + (if api.script(old(api.clock)).fails then 1 else 0)
    ensures Traced(api.script, api.start, s0, |old(api.log)|, api.Now(), api.log, g)
    ensures var t := api.script(old(api.clock));
            var found := UsersTurn(t, old(api.Now()));
            && (api.meddling == old(api.meddling) ==> found == old(api.Now()))
            && api.Now() == if !t.fails || t.applied then found.(boosts := found.boosts - {k}) else found
  {
    ghost var before, log0, readAt := api.Now(), api.log, api.clock;
    WatchedFirst(api.script, api.start, log0, readAt, before, k, read);
    TracedNothing(api.script, api.start, before, before, log0, g);
    var ok, found := DeleteChild(api, g, k, read, readAt);
    TracedDelete(api.script, api.start, before, |log0|, before, log0, found, api.Now(), api.log[|log0|], g);
    TracedTransitive(api.script, api.start, s0, |log0|, before, log0, api.Now(), api.log, g);
  }

  /** Deletes the child in a skipped namespace, if there is a managed one. */
  method DeleteChildIfExists(api: ApiServer, g: string, ns: string)
    requires api.Valid() && HasFinalizer(api.Now(), g)
    modifies api
    ensures api.Valid() && HasFinalizer(api.Now(), g) && api.clock > old(api.clock)
    ensures api.meddling >= old(api.meddling) && api.faults >= old(api.faults) && old(api.log) <= api.log
    ensures Traced(api.script, api.start, old(api.Now()), |old(api.log)|, api.Now(), api.log, g)
    ensures api.Now() == AfterDeleteIfExists(api.script, old(api.clock), old(api.Now()), ChildKey(g, ns))
    ensures api.meddling == old(api.meddling) ==> OnlyChild(old(api.Now()), api.Now(), g, ns)
    ensures api.meddling == old(api.meddling) && api.faults == old(api.faults) ==>
              !ManagedBy(api.Now(), ChildKey(g, ns), g)
    ensures api.meddling == old(api.meddling) && !old(ManagedBy(api.Now(), ChildKey(g, ns), g)) ==>
              api.Now() == old(api.Now()) && api.log == old(api.log)
  {
    var key := ChildKey(g, ns);
    var fetched := api.GetBoost(key);
    ghost var read, log0 := api.Now(), api.log;
    UserKeepsFacts(old(api.Now()), read, ns, g);
    TracedNothing(api.script, api.start, old(api.Now()), read, log0, g);
    if fetched.Found? && fetched.value.managedBy.Some? {
      LabelOfChildName(read, key, g);
      DeleteFetched(api, g, key, fetched.value, old(api.Now()));
    }
  }

  datatype Outcome = Active | Skipped | Failed(conflict: bool)

  /** The calls that decide about a namespace failed: the listing, or any call if there is no foreign boost. */
  ghost predicate OwnCallsFail(script: Script, from: nat, to: nat, foreign: bool)
  {
    if foreign then script(from).fails else Faulted(script, from) < Faulted(script, to)
  }

  /** One namespace of the main loop. */
  method ProcessNamespace(api: ApiServer, g: string, gb: GlobalBoost, ns: string) returns (r: Outcome)
    requires api.Valid() && g != "" && HasFinalizer(api.Now(), g)
    modifies api
    ensures api.Valid() && HasFinalizer(api.Now(), g) && api.clock > old(api.clock)
    ensures api.meddling >= old(api.meddling) && api.faults >= old(api.faults) && old(api.log) <= api.log
    ensures Traced(api.script, api.start, old(api.Now()), |old(api.log)|, api.Now(), api.log, g)
    ensures var script, c := api.script, old(api.clock);
            var listed := UsersTurn(script(c), old(api.Now()));
            var got := UsersTurn(script(c + 1), listed);
            r == Failed(true) <==>
              !script(c).fails && !Foreign(listed, g, ns) && !script(c + 1).fails && Occupied(got, g, ns)
    ensures r == Failed(true) ==>
              Swaps(api.script(old(api.clock) + 1), ChildKey(g, ns)) && api.clock > old(api.clock) + 1
    ensures api.meddling == old(api.meddling) ==>
              && OnlyChild(old(api.Now()), api.Now(), g, ns)
              && r == (if OwnCallsFail(api.script, old(api.clock), api.clock, old(Foreign(api.Now(), g, ns)))
                       then Failed(false)
                       else if old(Foreign(api.Now(), g, ns)) then Skipped else Active)
              && (r.Active? ==> ChildUpToDate(api.Now(), g, gb, ns))
              && (r.Failed? ==> api.faults > old(api.faults))
    ensures api.meddling == old(api.meddling) && api.faults == old(api.faults) && old(Settled(api.Now(), g, gb, ns)) ==>
              api.Now() == old(api.Now()) && api.log == old(api.log)
  {
    var unmanaged := HasUnmanagedBoosts(api, g, ns);
    ghost var listed, log0 := api.Now(), api.log;
    UserKeepsFacts(old(api.Now()), listed, ns, g);
    TracedNothing(api.script, api.start, old(api.Now()), listed, log0, g);
    if unmanaged.None? {
      return Failed(false);
    }
    if unmanaged.value {
      DeleteChildIfExists(api, g, ns);
      TracedTransitive(api.script, api.start, old(api.Now()), |log0|, listed, log0, api.Now(), api.log, g);
      return Skipped;
    }
    var ensured := EnsureChild(api, g, gb, ns);
    TracedTransitive(api.script, api.start, old(api.Now()), |log0|, listed, log0, api.Now(), api.log, g);
    match ensured
    case Ensured => return Active;
    case NotManaged => return Failed(true);
    case CallFailed => return Failed(false);
  }

  // ---------------------------------------------------------------------------
  // The main loop
  // ---------------------------------------------------------------------------

  /** An up-to-date child stays so while other namespaces are worked on. */
  lemma ChildStays(s: State, s': State, g: string, gb: GlobalBoost, ns: string, other: string)
    requires OnlyChild(s, s', g, other) && ns != other
    ensures ChildUpToDate(s', g, gb, ns) <==> ChildUpToDate(s, g, gb, ns)
    ensures ManagedBy(s', ChildKey(g, ns), g) <==> ManagedBy(s, ChildKey(g, ns), g)
  {
    var k := ChildKey(g, ns);
    assert k in s.boosts - {ChildKey(g, other)} <==> k in s.boosts;
    assert k in s'.boosts - {ChildKey(g, other)} <==> k in s'.boosts;
    assert k in s.boosts ==> s.boosts[k] == (s.boosts - {ChildKey(g, other)})[k];
    assert k in s'.boosts ==> s'.boosts[k] == (s'.boosts - {ChildKey(g, other)})[k];
  }

  /** A namespace is recorded as it should be if it is in `done`, and has its child if it is active. */
  ghost predicate Recorded(s0: State, s: State, g: string, gb: GlobalBoost, done: set<string>,
                           active: seq<string>, skipped: seq<string>, failed: set<string>, ns: string)
  {
    && (ns in active <==> ns in done && ns !in failed && !Foreign(s0, g, ns))
    && (ns in skipped <==> ns in done && ns !in failed && Foreign(s0, g, ns))
    && (ns in active ==> ChildUpToDate(s, g, gb, ns))
  }

  /** Progress of the main loop from state `s0`. */
  ghost predicate Progress(s0: State, s: State, g: string, gb: GlobalBoost, done: set<string>,
                           active: seq<string>, skipped: seq<string>, failed: set<string>)
  {
    forall ns {:trigger Recorded(s0, s, g, gb, done, active, skipped, failed, ns)} ::
      Recorded(s0, s, g, gb, done, active, skipped, failed, ns)
  }

  lemma ProgressStep(s0: State, s: State, s': State, g: string, gb: GlobalBoost, done: set<string>,
                     active: seq<string>, skipped: seq<string>, failed: set<string>, ns: string, r: Outcome)
    requires Kept(s0, s, g) && OnlyChild(s, s', g, ns) && ns !in done && failed <= done
    requires Progress(s0, s, g, gb, done, active, skipped, failed)
    requires r.Active? ==> !Foreign(s, g, ns) && ChildUpToDate(s', g, gb, ns)
    requires r.Skipped? ==> Foreign(s, g, ns)
    ensures Progress(s0, s', g, gb, done + {ns}, if r.Active? then active + [ns] else active,
                     if r.Skipped? then skipped + [ns] else skipped, if r.Failed? then failed + {ns} else failed)
  {
    KeptForeign(s0, s, g, ns);
    var done', failed' := done + {ns}, if r.Failed? then failed + {ns} else failed;
    var active', skipped' := if r.Active? then active + [ns] else active,
        if r.Skipped? then skipped + [ns] else skipped;
    forall n
      ensures Recorded(s0, s', g, gb, done', active', skipped', failed', n)
    {
      assert Recorded(s0, s, g, gb, done, active, skipped, failed, n);
      if n != ns {
        ChildStays(s, s', g, gb, n, ns);
      }
    }
  }

  /** The visit of one namespace and the calls it made. */
  datatype Visit = Visit(ns: string, from: nat, to: nat)

  /** The namespaces in `done` have been visited once each, one after the other, between the two times. */
  ghost predicate Visited(visits: seq<Visit>, done: set<string>, from: nat, to: nat)
  {
    if visits == [] then done == {} && from == to
    else
      var v := visits[|visits| - 1];
      v.ns in done && v.from < v.to == to && Visited(visits[..|visits| - 1], done - {v.ns}, from, v.from)
  }

  /** The namespaces that failed are those whose own calls did. */
  ghost predicate FailuresExact(script: Script, s: State, g: string, visits: seq<Visit>, failed: set<string>)
  {
    if visits == [] then failed == {}
    else
      var v := visits[|visits| - 1];
      && (v.ns in failed <==> OwnCallsFail(script, v.from, v.to, Foreign(s, g, v.ns)))
      && FailuresExact(script, s, g, visits[..|visits| - 1], failed - {v.ns})
  }

  lemma VisitMore(script: Script, s: State, g: string, visits: seq<Visit>, failed: set<string>, done: set<string>,
                  from: nat, v: Visit, fails: bool)
    requires Visited(visits, done, from, v.from) && v.from < v.to && v.ns !in done && failed <= done
    ensures Visited(visits + [v], done + {v.ns}, from, v.to)
    ensures FailuresExact(script, s, g, visits, failed) &&
            (fails <==> OwnCallsFail(script, v.from, v.to, Foreign(s, g, v.ns))) ==>
              FailuresExact(script, s, g, visits + [v], if fails then failed + {v.ns} else failed)
  {
    assert (visits + [v])[..|visits|] == visits;
    assert done + {v.ns} - {v.ns} == done && failed + {v.ns} - {v.ns} == failed && failed - {v.ns} == failed;
  }

  /** In some visit users put an unlabelled boost under the child name between the listing and the get. */
  ghost predicate SwapInVisit(script: Script, g: string, visits: seq<Visit>)
  {
    exists i :: 0 <= i < |visits| && visits[i].from + 1 < visits[i].to &&
                Swaps(script(visits[i].from + 1), ChildKey(g, visits[i].ns))
  }

  ghost predicate SettledIn(s: State, g: string, gb: GlobalBoost, desired: set<string>, ns: string)
  {
    ns in desired ==> Settled(s, g, gb, ns)
  }

  ghost predicate AllSettled(s: State, g: string, gb: GlobalBoost, desired: set<string>)
  {
    forall ns {:trigger SettledIn(s, g, gb, desired, ns)} :: SettledIn(s, g, gb, desired, ns)
  }

  /** Both lists are free of repetitions and have nothing of `left`. */
  ghost predicate Listed(active: seq<string>, skipped: seq<string>, left: set<string>)
  {
    && NoDuplicates(active) && NoDuplicates(skipped)
    && forall ns {:trigger NotIn(active, skipped, ns)} :: ns in left ==> NotIn(active, skipped, ns)
  }

  predicate NotIn(active: seq<string>, skipped: seq<string>, ns: string)
  {
    ns !in active && ns !in skipped
  }

  lemma ListedMore(active: seq<string>, skipped: seq<string>, left: set<string>, ns: string, r: Outcome)
    requires Listed(active, skipped, left) && ns in left
    ensures Listed(if r.Active? then active + [ns] else active, if r.Skipped? then skipped + [ns] else skipped,
              left - {ns})
  {
    assert NotIn(active, skipped, ns);
    forall n | n in left - {ns}
      ensures NotIn(if r.Active? then active + [ns] else active, if r.Skipped? then skipped + [ns] else skipped, n)
    {
      assert NotIn(active, skipped, n);
    }
  }

  datatype Moment = Moment(s: State, time: nat)

  /** The books of the main loop: which namespaces it has visited, and how that turned out. */
  datatype Books = Books(
    done: set<string>, active: seq<string>, skipped: seq<string>,
    conflict: bool, failed: set<string>, visits: seq<Visit>)

  /** The books after one more visit. */
  function Entered(books: Books, v: Visit, r: Outcome): Books
  {
    Books(books.done + {v.ns}, if r.Active? then books.active + [v.ns] else books.active,
          if r.Skipped? then books.skipped + [v.ns] else books.skipped, books.conflict || r == Failed(true),
          if r.Failed? then books.failed + {v.ns} else books.failed, books.visits + [v])
  }

  /** The books are right, on the way from `first` to `now`. */
  ghost predicate Bookkept(script: Script, first: Moment, now: Moment, g: string, gb: GlobalBoost, books: Books)
  {
    && Visited(books.visits, books.done, first.time, now.time) && books.failed <= books.done
    && (books.conflict ==> SwapInVisit(script, g, books.visits))
    && (Calm(script, first.time, now.time) ==>
          && Kept(first.s, now.s, g) && !books.conflict
          && Progress(first.s, now.s, g, gb, books.done, books.active, books.skipped, books.failed)
          && FailuresExact(script, first.s, g, books.visits, books.failed)
          && (Faultless(script, first.time, now.time) ==> books.failed == {}))
  }

  /** What one visit of a namespace leaves, and how it turns out. */
  ghost predicate Handled(script: Script, before: Moment, after: Moment, g: string, gb: GlobalBoost, ns: string,
                          r: Outcome)
  {
    var c, foreign := before.time, Foreign(before.s, g, ns);
    && c < after.time
    && (r == Failed(true) ==> c + 1 < after.time && Swaps(script(c + 1), ChildKey(g, ns)))
    && (Calm(script, c, after.time) ==>
          && OnlyChild(before.s, after.s, g, ns)
          && r == (if OwnCallsFail(script, c, after.time, foreign) then Failed(false)
                   else if foreign then Skipped else Active)
          && (r.Active? ==> ChildUpToDate(after.s, g, gb, ns))
          && (r.Failed? ==> !Faultless(script, c, after.time)))
  }

  /** One turn of the main loop. */
  method VisitNamespace(api: ApiServer, g: string, gb: GlobalBoost, ns: string, ghost s0: State, ghost n: nat)
      returns (r: Outcome)
    requires api.Valid() && g != "" && HasFinalizer(api.Now(), g)
    requires Traced(api.script, api.start, s0, n, api.Now(), api.log, g)
    modifies api
    ensures api.Valid() && HasFinalizer(api.Now(), g) && Traced(api.script, api.start, s0, n, api.Now(), api.log, g)
    ensures api.meddling >= old(api.meddling) && api.faults >= old(api.faults) && old(api.log) <= api.log
    ensures Handled(api.script, old(Moment(api.Now(), api.clock)), Moment(api.Now(), api.clock), g, gb, ns, r)
    ensures api.meddling == old(api.meddling) && api.faults == old(api.faults) && old(Settled(api.Now(), g, gb, ns)) ==>
              api.Now() == old(api.Now()) && api.log == old(api.log)
  {
    r := ProcessNamespace(api, g, gb, ns);
    TracedTransitive(api.script, api.start, s0, n, old(api.Now()), old(api.log), api.Now(), api.log, g);
  }

  lemma BookkeptMore(script: Script, first: Moment, before: Moment, after: Moment, g: string, gb: GlobalBoost,
                     books: Books, ns: string, r: Outcome)
    requires Bookkept(script, first, before, g, gb, books) && ns !in books.done
    requires first.time <= before.time && Handled(script, before, after, g, gb, ns, r)
    ensures Bookkept(script, first, after, g, gb, Entered(books, Visit(ns, before.time, after.time), r))
  {
    var v := Visit(ns, before.time, after.time);
    CountsGrow(script, first.time, before.time);
    CountsGrow(script, before.time, after.time);
    VisitMore(script, first.s, g, books.visits, books.failed, books.done, first.time, v, r.Failed?);
    SwapMore(script, g, books.visits, v, books.conflict, r);
    if Calm(script, first.time, after.time) {
      KeptTransitive(first.s, before.s, after.s, g);
      KeptForeign(first.s, before.s, g, ns);
      ProgressStep(first.s, before.s, after.s, g, gb, books.done, books.active, books.skipped, books.failed, ns, r);
    }
  }

  /** The main loop: every desired namespace is visited, in any order; `failed` are those that could not be handled. */
  method ProcessNamespaces(api: ApiServer, g: string, gb: GlobalBoost, desired: set<string>)
      returns (active: seq<string>, skipped: seq<string>, conflict: bool, ghost failed: set<string>,
               ghost visits: seq<Visit>)
    requires api.Valid() && g != "" && HasFinalizer(api.Now(), g)
    modifies api
    ensures api.Valid() && HasFinalizer(api.Now(), g) && api.clock >= old(api.clock)
    ensures api.meddling >= old(api.meddling) && api.faults >= old(api.faults) && old(api.log) <= api.log
    ensures Traced(api.script, api.start, old(api.Now()), |old(api.log)|, api.Now(), api.log, g)
    ensures NoDuplicates(active) && NoDuplicates(skipped)
    ensures Bookkept(api.script, old(Moment(api.Now(), api.clock)), Moment(api.Now(), api.clock), g, gb,
                     Books(desired, active, skipped, conflict, failed, visits))
    ensures api.meddling == old(api.meddling) && api.faults == old(api.faults) &&
            old(AllSettled(api.Now(), g, gb, desired)) ==>
              api.Now() == old(api.Now()) && api.log == old(api.log)
  {
    active, skipped, conflict, failed, visits := [], [], false, {}, [];
    ghost var s0, log0, first := api.Now(), api.log, Moment(api.Now(), api.clock);
    TracedNothing(api.script, api.start, s0, s0, log0, g);
    var left := desired;
    assert desired - left == {};
    while left != {}
      invariant left <= desired
      invariant api.Valid() && HasFinalizer(api.Now(), g) && api.clock >= first.time
      invariant api.meddling >= old(api.meddling) && api.faults >= old(api.faults) && log0 <= api.log
      invariant Traced(api.script, api.start, s0, |log0|, api.Now(), api.log, g)
      invariant Listed(active, skipped, left)
      invariant Bookkept(api.script, first, Moment(api.Now(), api.clock), g, gb,
                         Books(desired - left, active, skipped, conflict, failed, visits))
      invariant api.meddling == old(api.meddling) && api.faults == old(api.faults) && AllSettled(s0, g, gb, desired) ==>
                  api.Now() == s0 && api.log == log0
    {
      var ns :| ns in left;
      assert AllSettled(s0, g, gb, desired) ==> SettledIn(s0, g, gb, desired, ns);
      ghost var before := Moment(api.Now(), api.clock);
      ghost var books := Books(desired - left, active, skipped, conflict, failed, visits);
      var outcome := VisitNamespace(api, g, gb, ns, s0, |log0|);
      ListedMore(active, skipped, left, ns, outcome);
      BookkeptMore(api.script, first, before, Moment(api.Now(), api.clock), g, gb, books, ns, outcome);
      left := left - {ns};
      assert desired - left == books.done + {ns};
      visits := visits + [Visit(ns, before.time, api.clock)];
      match outcome
      case Active => active := active + [ns];
      case Skipped => skipped := skipped + [ns];
      case Failed(c) =>
        conflict := conflict || c;
        failed := failed + {ns};
    }
    assert desired - {} == desired;
  }

  lemma SwapMore(script: Script, g: string, visits: seq<Visit>, v: Visit, conflict: bool, outcome: Outcome)
    requires conflict ==> SwapInVisit(script, g, visits)
    requires outcome == Failed(true) ==> v.from + 1 < v.to && Swaps(script(v.from + 1), ChildKey(g, v.ns))
    ensures conflict || outcome == Failed(true) ==> SwapInVisit(script, g, visits + [v])
  {
    var visits' := visits + [v];
    assert visits'[|visits|] == v;
    if conflict {
      var i :| 0 <= i < |visits| && visits[i].from + 1 < visits[i].to &&
          Swaps(script(visits[i].from + 1), ChildKey(g, visits[i].ns));
      assert visits'[i] == visits[i];
    }
  }

  // ---------------------------------------------------------------------------
  // Deleting children
  // ---------------------------------------------------------------------------

  ghost predicate DeletedAt(s: State, s': State, k: Key)
  {
    k in s'.boosts ==> k in s.boosts && s'.boosts[k] == s.boosts[k]
  }

  /** Only deletions of children of `g` lead from `s` to `s'`. */
  ghost predicate OnlyDeleted(s: State, s': State, g: string)
  {
    Kept(s, s', g) && forall k {:trigger DeletedAt(s, s', k)} :: DeletedAt(s, s', k)
  }

  lemma DeletedMore(s0: State, s: State, k: Key, g: string)
    requires OnlyDeleted(s0, s, g) && ManagedBy(s0, k, g)
    ensures OnlyDeleted(s0, s.(boosts := s.boosts - {k}), g)
  {
    var s' := s.(boosts := s.boosts - {k});
    forall k'
      ensures KeptAt(s0, s', g, k') && DeletedAt(s0, s', k')
    {
      assert KeptAt(s0, s, g, k') && DeletedAt(s0, s, k');
    }
  }

  /** Deletes the children outside the active namespaces. */
  method CleanupStaleChildren(api: ApiServer, g: string, active: seq<string>)
    requires api.Valid() && HasFinalizer(api.Now(), g)
    modifies api
    ensures api.Valid() && HasFinalizer(api.Now(), g) && api.clock > old(api.clock)
    ensures api.meddling >= old(api.meddling) && api.faults >= old(api.faults) && old(api.log) <= api.log
    ensures Traced(api.script, api.start, old(api.Now()), |old(api.log)|, api.Now(), api.log, g)
    ensures api.meddling == old(api.meddling) ==> OnlyDeleted(old(api.Now()), api.Now(), g)
    ensures api.meddling == old(api.meddling) ==>
              forall k :: old(ManagedBy(api.Now(), k, g)) && k.namespace in active ==> ManagedBy(api.Now(), k, g)
    ensures api.meddling == old(api.meddling) && api.faults == old(api.faults) ==>
              forall k :: ManagedBy(api.Now(), k, g) ==> k.namespace in active
    ensures api.meddling == old(api.meddling) &&
            (forall k :: old(ManagedBy(api.Now(), k, g)) ==> k.namespace in active) ==>
              api.Now() == old(api.Now()) && api.log == old(api.log)
  {
    var listed := api.ListManaged(g);
    ghost var read, log0 := api.Now(), api.log;
    UserKeepsFacts(old(api.Now()), read, "", g);
    TracedNothing(api.script, api.start, old(api.Now()), read, log0, g);
    if listed.Some? {
      DeleteOutside(api, g, listed.value, active);
      if api.meddling == old(api.meddling) {
        CleanedOut(api.Now(), g, listed.value, active, api.faults == old(api.faults));
      }
      TracedTransitive(api.script, api.start, old(api.Now()), |log0|, read, log0, api.Now(), api.log, g);
    }
  }

  ghost predicate AllWatched(script: Script, start: State, log: seq<Write>, readAt: nat, now: nat, s: State,
                             children: map<Key, Boost>, keys: set<Key>)
    requires keys <= children.Keys
  {
    forall k {:trigger WatchedKey(script, start, log, readAt, now, s, children, k)} ::
      k in keys ==> WatchedKey(script, start, log, readAt, now, s, children, k)
  }

  ghost predicate WatchedKey(script: Script, start: State, log: seq<Write>, readAt: nat, now: nat, s: State,
                             children: map<Key, Boost>, k: Key)
  {
    k in children && Watched(script, start, log, readAt, now, s, k, children[k])
  }

  /** The other children stay watched while one of them is deleted. */
  lemma WatchedOthers(script: Script, start: State, log: seq<Write>, readAt: nat, now: nat, s: State,
                      children: map<Key, Boost>, left: set<Key>, w: Write)
    requires left <= children.Keys && AllWatched(script, start, log, readAt, now, s, children, left)
    requires Replayed(script, log, start, now, s) && w.Delete? && w.at == now + 1
    ensures AllWatched(script, start, log + [w], readAt, now + 1, Effect(script(now), UsersTurn(script(now), s), w),
                       children, left - {w.key})
  {
    var log', now', s' := log + [w], now + 1, Effect(script(now), UsersTurn(script(now), s), w);
    forall k | k in left - {w.key}
      ensures WatchedKey(script, start, log', readAt, now', s', children, k)
    {
      assert WatchedKey(script, start, log, readAt, now, s, children, k);
      WatchedOther(script, start, log, readAt, now, s, k, children[k], w);
    }
  }

  lemma CleanedOut(s: State, g: string, children: map<Key, Boost>, active: seq<string>, faultless: bool)
    requires Cleaning(s, g, children, {}, active, faultless)
    ensures forall k :: k in children && k.namespace in active ==> ManagedBy(s, k, g)
    ensures faultless ==> forall k :: ManagedBy(s, k, g) ==> k.namespace in active
  {
    forall k
      ensures k in children && k.namespace in active ==> ManagedBy(s, k, g)
      ensures faultless && ManagedBy(s, k, g) ==> k.namespace in active
    {
      assert CleanAt(s, g, children, {}, active, faultless, k);
    }
  }

  /** A child that is left or in an active namespace is still there, and if no call failed there is no other. */
  ghost predicate CleanAt(s: State, g: string, children: map<Key, Boost>, left: set<Key>, active: seq<string>,
                          faultless: bool, k: Key)
  {
    && (k in children && (k in left || k.namespace in active) ==> ManagedBy(s, k, g))
    && (faultless && ManagedBy(s, k, g) ==> k in left || k.namespace in active)
  }

  ghost predicate Cleaning(s: State, g: string, children: map<Key, Boost>, left: set<Key>, active: seq<string>,
                           faultless: bool)
  {
    forall k {:trigger CleanAt(s, g, children, left, active, faultless, k)} ::
        CleanAt(s, g, children, left, active, faultless, k)
  }

  lemma CleaningMore(s: State, s': State, g: string, children: map<Key, Boost>, left: set<Key>, active: seq<string>,
                     faultless: bool, faultless': bool, k: Key)
    requires Cleaning(s, g, children, left, active, faultless) && (faultless' ==> faultless)
    requires if k.namespace in active then s' == s
             else s' == s.(boosts := s.boosts - {k}) || (s' == s && !faultless')
    ensures Cleaning(s', g, children, left - {k}, active, faultless')
  {
    forall k'
      ensures CleanAt(s', g, children, left - {k}, active, faultless', k')
    {
      assert CleanAt(s, g, children, left, active, faultless, k');
    }
  }

  /** The children were listed in this state. */
  ghost predicate ListedNow(s: State, g: string, children: map<Key, Boost>)
  {
    && (forall k :: k in children <==> ManagedBy(s, k, g))
    && (forall k :: k in children ==> children[k] == s.boosts[k])
  }

  lemma WatchedFromListing(script: Script, start: State, log: seq<Write>, now: nat, s: State, g: string,
                           children: map<Key, Boost>)
    requires Replayed(script, log, start, now, s) && ListedNow(s, g, children)
    ensures AllWatched(script, start, log, now, now, s, children, children.Keys)
  {
    forall k | k in children.Keys
      ensures WatchedKey(script, start, log, now, now, s, children, k)
    {
      WatchedFirst(script, start, log, now, s, k, children[k]);
    }
  }

  /** The deletion of one of the children that are left from a listing at `readAt`, in the state `s0`. */
  method DeleteNext(api: ApiServer, g: string, ghost children: map<Key, Boost>, ghost left: set<Key>, k: Key,
                    ghost s0: State, ghost n: nat, ghost readAt: nat)
      returns (ok: bool, ghost found: State)
    requires api.Valid() && HasFinalizer(api.Now(), g) && ChildrenNamed(s0) && ListedNow(s0, g, children)
    requires k in left && left <= children.Keys
    requires AllWatched(api.script, api.start, api.log, readAt, api.clock, api.Now(), children, left)
    requires Traced(api.script, api.start, s0, n, api.Now(), api.log, g)
    modifies api
    ensures api.Valid() && HasFinalizer(api.Now(), g) && api.clock == old(api.clock) + 1 && old(api.log) <= api.log
    ensures api.meddling >= old(api.meddling) && (api.meddling == old(api.meddling) ==> found == old(api.Now()))
    ensures api.faults == old(api.faults) + (if ok then 0 else 1)
    ensures UserMay(old(api.Now()), found)
    ensures api.Now() == found.(boosts := found.boosts - {k}) || (!ok && api.Now() == found)
    ensures AllWatched(api.script, api.start, api.log, readAt, api.clock, api.Now(), children, left - {k})
    ensures Traced(api.script, api.start, s0, n, api.Now(), api.log, g)
    ensures api.meddling == old(api.meddling) && old(OnlyDeleted(s0, api.Now(), g)) ==> OnlyDeleted(s0, api.Now(), g)
  {
    ghost var before, log1, c1 := api.Now(), api.log, api.clock;
    assert WatchedKey(api.script, api.start, log1, readAt, c1, before, children, k) && ManagedBy(s0, k, g);
    ok, found := DeleteChild(api, g, k, children[k], readAt);
    ghost var w := api.log[|log1|];
    UserAddsNoChildren(before, found, g);
    TracedDelete(api.script, api.start, s0, n, before, log1, found, api.Now(), w, g);
    WatchedOthers(api.script, api.start, log1, readAt, c1, before, children, left, w);
    if api.meddling == old(api.meddling) && OnlyDeleted(s0, before, g) {
      DeletedMore(s0, before, k, g);
    }
  }

  /** Deletes those of the listed children that are outside the active namespaces. */
  method DeleteOutside(api: ApiServer, g: string, children: map<Key, Boost>, active: seq<string>)
    requires api.Valid() && HasFinalizer(api.Now(), g) && ListedNow(api.Now(), g, children)
    modifies api
    ensures api.Valid() && HasFinalizer(api.Now(), g) && api.clock >= old(api.clock)
    ensures api.meddling >= old(api.meddling) && api.faults >= old(api.faults) && old(api.log) <= api.log
    ensures Traced(api.script, api.start, old(api.Now()), |old(api.log)|, api.Now(), api.log, g)
    ensures api.meddling == old(api.meddling) ==>
              && OnlyDeleted(old(api.Now()), api.Now(), g)
              && Cleaning(api.Now(), g, children, {}, active, api.faults == old(api.faults))
    ensures api.meddling == old(api.meddling) && (forall k :: k in children ==> k.namespace in active) ==>
              api.Now() == old(api.Now()) && api.log == old(api.log)
  {
    ghost var s0, log0, readAt := api.Now(), api.log, api.clock;
    TracedNothing(api.script, api.start, s0, s0, log0, g);
    WatchedFromListing(api.script, api.start, log0, readAt, s0, g, children);
    var left := children.Keys;
    while left != {}
      invariant left <= children.Keys
      invariant api.Valid() && HasFinalizer(api.Now(), g) && api.clock >= readAt
      invariant api.meddling >= old(api.meddling) && api.faults >= old(api.faults) && log0 <= api.log
      invariant Traced(api.script, api.start, s0, |log0|, api.Now(), api.log, g)
      invariant AllWatched(api.script, api.start, api.log, readAt, api.clock, api.Now(), children, left)
      invariant api.meddling == old(api.meddling) ==>
                  && OnlyDeleted(s0, api.Now(), g)
                  && Cleaning(api.Now(), g, children, left, active, api.faults == old(api.faults))
      invariant api.meddling == old(api.meddling) && (forall k :: k in children ==> k.namespace in active) ==>
                  api.Now() == s0 && api.log == log0
    {
      var k :| k in left;
      ghost var before, f1 := api.Now(), api.faults;
      if k.namespace !in active {
        var ok, found := DeleteNext(api, g, children, left, k, s0, |log0|, readAt);
      }
      if api.meddling == old(api.meddling) {
        CleaningMore(before, api.Now(), g, children, left, active,
                     f1 == old(api.faults), api.faults == old(api.faults), k);
      }
      left := left - {k};
    }
  }

  /** Deletes all children; stops at the first call that fails. */
  method DeleteAllChildren(api: ApiServer, g: string) returns (ok: bool)
    requires api.Valid() && HasFinalizer(api.Now(), g)
    modifies api
    ensures api.Valid() && HasFinalizer(api.Now(), g) && api.clock > old(api.clock)
    ensures api.meddling >= old(api.meddling) && old(api.log) <= api.log
    ensures api.faults == old(api.faults) + (if ok then 0 else 1)
    ensures Traced(api.script, api.start, old(api.Now()), |old(api.log)|, api.Now(), api.log, g)
    ensures api.meddling == old(api.meddling) ==> OnlyDeleted(old(api.Now()), api.Now(), g)
    ensures ok ==> NoChildren(api.Now(), g)
  {
    var listed := api.ListManaged(g);
    ghost var s0, log0, m0 := api.Now(), api.log, api.meddling;
    UserKeepsFacts(old(api.Now()), s0, "", g);
    TracedNothing(api.script, api.start, old(api.Now()), s0, log0, g);
    if listed.None? {
      return false;
    }
    ok := DeleteListed(api, g, listed.value);
    TracedTransitive(api.script, api.start, old(api.Now()), |log0|, s0, log0, api.Now(), api.log, g);
  }

  method DeleteListed(api: ApiServer, g: string, children: map<Key, Boost>) returns (ok: bool)
    requires api.Valid() && HasFinalizer(api.Now(), g) && ListedNow(api.Now(), g, children)
    modifies api
    ensures api.Valid() && HasFinalizer(api.Now(), g) && api.clock >= old(api.clock)
    ensures api.meddling >= old(api.meddling) && old(api.log) <= api.log
    ensures api.faults == old(api.faults) + (if ok then 0 else 1)
    ensures Traced(api.script, api.start, old(api.Now()), |old(api.log)|, api.Now(), api.log, g)
    ensures api.meddling == old(api.meddling) ==> OnlyDeleted(old(api.Now()), api.Now(), g)
    ensures ok ==> NoChildren(api.Now(), g)
  {
    ghost var s0, log0, readAt := api.Now(), api.log, api.clock;
    TracedNothing(api.script, api.start, s0, s0, log0, g);
    WatchedFromListing(api.script, api.start, log0, readAt, s0, g, children);
    var left := children.Keys;
    while left != {}
      invariant left <= children.Keys
      invariant api.Valid() && HasFinalizer(api.Now(), g) && api.clock >= readAt
      invariant api.meddling >= old(api.meddling) && api.faults == old(api.faults) && log0 <= api.log
      invariant Traced(api.script, api.start, s0, |log0|, api.Now(), api.log, g)
      invariant AllWatched(api.script, api.start, api.log, readAt, api.clock, api.Now(), children, left)
      invariant api.meddling == old(api.meddling) ==> OnlyDeleted(s0, api.Now(), g)
      invariant forall k :: ManagedBy(api.Now(), k, g) ==> k in left
    {
      var k :| k in left;
      ghost var before := api.Now();
      var deleted, found := DeleteNext(api, g, children, left, k, s0, |log0|, readAt);
      if !deleted {
        return false;
      }
      UserAddsNoChildren(before, found, g);
      left := left - {k};
    }
    return true;
  }

  // ---------------------------------------------------------------------------
  // The status
  // ---------------------------------------------------------------------------

  datatype Result = Complete | Requeue | Errored

  function NewStatus(active: seq<string>, skipped: seq<string>): Status
  {
    Status(Int32(|active|), active, skipped, Some(active != []))
  }

  function WithStatus(s: State, g: string, gb: GlobalBoost, status: Status): State
  {
    s.(globals := s.globals[g := gb.(status := status)])
  }

  /** Writes the status if it differs from the one that was read. */
  method WriteStatus(api: ApiServer, g: string, gb: GlobalBoost, active: seq<string>, skipped: seq<string>)
      returns (r: Result)
    requires api.Valid()
    modifies api
    ensures api.Valid() && api.clock >= old(api.clock)
    ensures api.meddling >= old(api.meddling) && api.faults >= old(api.faults) && old(api.log) <= api.log
    ensures Traced(api.script, api.start, old(api.Now()), |old(api.log)|, api.Now(), api.log, g)
    ensures var found := UsersTurn(api.script(old(api.clock)), old(api.Now()));
            r == if NewStatus(active, skipped) == gb.status then Complete
                 else if api.script(old(api.clock)).fails then Errored
                 else if g in found.globals && found.globals[g] != gb then Requeue
                 else Complete
    ensures api.faults == old(api.faults) + (if r.Errored? then 1 else 0)
    ensures api.meddling == old(api.meddling) ==>
              || api.Now() == old(api.Now())
              || (g in old(api.globals) && old(api.globals)[g] == gb &&
                  api.Now() == WithStatus(old(api.Now()), g, gb, NewStatus(active, skipped)))
    ensures api.meddling == old(api.meddling) && g in old(api.globals) && old(api.globals)[g] == gb ==>
              && !r.Requeue?
              && (api.faults == old(api.faults) ==>
                    api.Now() == WithStatus(old(api.Now()), g, gb, NewStatus(active, skipped)))
    ensures NewStatus(active, skipped) == gb.status ==> api.Now() == old(api.Now()) && api.log == old(api.log)
  {
    var status := NewStatus(active, skipped);
    if status != gb.status {
      var written, found := api.UpdateStatus(g, gb, status);
      TracedWrite(api.script, api.start, old(api.Now()), found, api.Now(), old(api.log),
                  Global(g, gb, PutStatus(status), api.clock), g);
      match written
      case Conflict => return Requeue;
      case Rejected => return Errored;
      case Applied => return Complete;
      case NotFound => return Complete;
    }
    TracedNothing(api.script, api.start, old(api.Now()), api.Now(), api.log, g);
    if g in api.globals && api.globals[g] == gb {
      assert api.globals[g := gb.(status := status)] == api.globals;
    }
    return Complete;
  }

  // ---------------------------------------------------------------------------
  // Convergence
  // ---------------------------------------------------------------------------

  /** The children of `g` are exactly one per active namespace, each as the template says. */
  ghost predicate ChildrenOf(s: State, g: string, gb: GlobalBoost, active: seq<string>)
  {
    && (forall k :: ManagedBy(s, k, g) <==> k.name == ChildName(g) && k.namespace in active)
    && (forall k :: ManagedBy(s, k, g) ==> s.boosts[k].content == gb.template)
  }

  /** What the loop recorded, compared with the state it started from. */
  ghost predicate ListsOf(s: State, g: string, gb: GlobalBoost, active: seq<string>, skipped: seq<string>,
                          failed: set<string>)
  {
    && (forall ns :: ns in active <==> Desired(s, g, gb, ns) && ns !in failed)
    && (forall ns :: ns in skipped <==> Selected(s, gb, ns) && Foreign(s, g, ns) && ns !in failed)
  }

  ghost predicate SameMembers(xs: seq<string>, ys: seq<string>)
  {
    forall x :: x in xs <==> x in ys
  }

  lemma KeptSelection(s: State, s': State, g: string, gb: GlobalBoost)
    requires Kept(s, s', g)
    ensures forall ns :: Selected(s', gb, ns) <==> Selected(s, gb, ns)
    ensures forall ns :: Foreign(s', g, ns) <==> Foreign(s, g, ns)
    ensures forall ns :: Desired(s', g, gb, ns) <==> Desired(s, g, gb, ns)
  {
    forall ns
      ensures Foreign(s', g, ns) <==> Foreign(s, g, ns)
    {
      KeptForeign(s, s', g, ns);
    }
  }

  lemma ProgressLists(s0: State, s1: State, g: string, gb: GlobalBoost, desired: set<string>, active: seq<string>,
                      skipped: seq<string>, failed: set<string>, active': seq<string>, skipped': seq<string>)
    requires Progress(s0, s1, g, gb, desired, active, skipped, failed)
    requires forall ns :: ns in desired <==> Selected(s0, gb, ns)
    requires SameMembers(active', active) && SameMembers(skipped', skipped)
    ensures ListsOf(s0, g, gb, active', skipped', failed)
  {
    forall ns
      ensures ns in active' <==> Desired(s0, g, gb, ns) && ns !in failed
      ensures ns in skipped' <==> Selected(s0, gb, ns) && Foreign(s0, g, ns) && ns !in failed
    {
      assert Recorded(s0, s1, g, gb, desired, active, skipped, failed, ns);
    }
  }

  /** After a cleanup in which no call failed, exactly the active namespaces have their child. */
  lemma CleanedUp(s0: State, s1: State, s2: State, g: string, gb: GlobalBoost, desired: set<string>,
                  active: seq<string>,
                  skipped: seq<string>, failed: set<string>, active': seq<string>)
    requires Progress(s0, s1, g, gb, desired, active, skipped, failed) && SameMembers(active', active)
    requires OnlyDeleted(s1, s2, g) && ChildrenNamed(s2)
    requires forall k :: ManagedBy(s1, k, g) && k.namespace in active ==> ManagedBy(s2, k, g)
    requires forall k :: ManagedBy(s2, k, g) ==> k.namespace in active
    ensures ChildrenOf(s2, g, gb, active')
  {
    forall k
      ensures ManagedBy(s2, k, g) <==> k.name == ChildName(g) && k.namespace in active'
      ensures ManagedBy(s2, k, g) ==> s2.boosts[k].content == gb.template
    {
      assert Recorded(s0, s1, g, gb, desired, active, skipped, failed, k.namespace) && DeletedAt(s1, s2, k);
      if k.name == ChildName(g) {
        assert k == ChildKey(g, k.namespace);
      }
    }
  }

  /** If nothing failed, that is what `Converged` asks of the children and of the status. */
  lemma NothingFailed(s0: State, s2: State, g: string, gb: GlobalBoost, active: seq<string>, skipped: seq<string>)
    requires Kept(s0, s2, g) && ListsOf(s0, g, gb, active, skipped, {}) && ChildrenOf(s2, g, gb, active)
    requires Sorted(active) && Sorted(skipped)
    ensures ChildrenExact(s2, g, gb) && StatusExact(s2, g, gb, NewStatus(active, skipped))
    ensures AlreadyConverged(s2, g, gb) ==> NewStatus(active, skipped) == gb.status
  {
    KeptSelection(s0, s2, g, gb);
    if AlreadyConverged(s2, g, gb) {
      StatusUnique(s2, g, gb, NewStatus(active, skipped), gb.status);
    }
  }

  ghost predicate AlreadyConverged(s: State, g: string, gb: GlobalBoost)
  {
    Converged(s, g) && s.globals[g] == gb
  }

  lemma ConvergedIsSettled(s: State, g: string, gb: GlobalBoost, desired: set<string>)
    requires AlreadyConverged(s, g, gb)
    requires forall ns :: ns in desired ==> Selected(s, gb, ns)
    ensures AllSettled(s, g, gb, desired)
  {
    forall ns
      ensures SettledIn(s, g, gb, desired, ns)
    {
      assert ManagedBy(s, ChildKey(g, ns), g) <==> Desired(s, g, gb, ns);
    }
  }

  lemma ConvergedHasNothingStale(s: State, g: string, gb: GlobalBoost, desired: set<string>,
                                 active: seq<string>, skipped: seq<string>)
    requires AlreadyConverged(s, g, gb) && Progress(s, s, g, gb, desired, active, skipped, {})
    requires forall ns :: ns in desired <==> Selected(s, gb, ns)
    ensures forall k :: ManagedBy(s, k, g) ==> k.namespace in active
  {
    forall k | ManagedBy(s, k, g)
      ensures k.namespace in active
    {
      assert Recorded(s, s, g, gb, desired, active, skipped, {}, k.namespace);
    }
  }

  /** The status part of a global boost plays no role in what is selected or settled. */
  lemma StatusIrrelevant(s: State, g: string, gb: GlobalBoost, active: seq<string>, skipped: seq<string>)
    requires g in s.globals && s.globals[g] == gb && gb.finalizer && !gb.deleting && Parses(gb.namespaceSelector)
    requires ChildrenExact(s, g, gb) && StatusExact(s, g, gb, NewStatus(active, skipped))
    ensures Converged(s.(globals := s.globals[g := gb.(status := NewStatus(active, skipped))]), g)
  {
    var gb' := gb.(status := NewStatus(active, skipped));
    var s' := s.(globals := s.globals[g := gb']);
    assert forall ns :: Selected(s', gb', ns) <==> Selected(s, gb, ns);
    assert forall ns :: Foreign(s', g, ns) <==> Foreign(s, g, ns);
    assert forall ns :: Desired(s', g, gb', ns) <==> Desired(s, g, gb, ns);
    assert forall k :: ManagedBy(s', k, g) <==> ManagedBy(s, k, g);
  }

  /** The namespaces the listing returned that are not terminating. */
  method NotTerminating(listed: map<string, Namespace>) returns (desired: set<string>)
    ensures desired == set ns | ns in listed && !listed[ns].terminating
  {
    desired := {};
    var left := listed.Keys;
    while left != {}
      invariant left <= listed.Keys
      invariant desired == set ns | ns in listed && ns !in left && !listed[ns].terminating
    {
      var ns :| ns in left;
      left := left - {ns};
      if !listed[ns].terminating {
        desired := desired + {ns};
      }
    }
  }

  /** The namespaces that the global boost selects; nothing if the listing failed. */
  method DesiredNamespaces(api: ApiServer, g: string, gb: GlobalBoost) returns (r: Option<set<string>>)
    requires api.Valid() && HasFinalizer(api.Now(), g)
    modifies api`namespaces, api`boosts, api`globals, api`clock, api`meddling, api`faults
    ensures api.Valid() && HasFinalizer(api.Now(), g) && api.clock == old(api.clock) + 1 &&
            UserMay(old(api.Now()), api.Now())
    ensures api.meddling >= old(api.meddling) && (api.meddling == old(api.meddling) ==> api.Now() == old(api.Now()))
    ensures api.faults == old(api.faults) + (if r.None? then 1 else 0)
    ensures r.Some? ==> forall ns :: ns in r.value <==> Selected(api.Now(), gb, ns)
  {
    var listed := api.ListNamespaces(gb.namespaceSelector);
    UserKeepsFacts(old(api.Now()), api.Now(), "", g);
    if listed.None? {
      return None;
    }
    var desired := NotTerminating(listed.value);
    return Some(desired);
  }

  datatype Settlement = Settlement(active: seq<string>, skipped: seq<string>)

  /**
   Settles each desired namespace and removes the stale children. `failed` are the
   namespaces whose own calls failed, `visits` their visits, and `mid` is the time
   between the loop and the cleanup. Undisturbed, the lists are exact up to `failed`; if
   the calls of the cleanup succeed, exactly the active namespaces have their child.
   */
  method SettleNamespaces(api: ApiServer, g: string, gb: GlobalBoost, desired: set<string>)
      returns (r: Settlement, conflict: bool, ghost failed: set<string>, ghost visits: seq<Visit>, ghost mid: nat)
    requires api.Valid() && g != "" && HasFinalizer(api.Now(), g)
    requires forall ns :: ns in desired <==> Selected(api.Now(), gb, ns)
    modifies api
    ensures api.Valid() && HasFinalizer(api.Now(), g) && api.clock >= mid >= old(api.clock)
    ensures api.meddling >= old(api.meddling) && api.faults >= old(api.faults) && old(api.log) <= api.log
    ensures Traced(api.script, api.start, old(api.Now()), |old(api.log)|, api.Now(), api.log, g)
    ensures Visited(visits, desired, old(api.clock), mid)
    ensures conflict ==> SwapInVisit(api.script, g, visits)
    ensures api.meddling == old(api.meddling) ==>
              && Kept(old(api.Now()), api.Now(), g) && !conflict
              && Sorted(r.active) && Sorted(r.skipped) && ListsOf(old(api.Now()), g, gb, r.active, r.skipped, failed)
              && FailuresExact(api.script, old(api.Now()), g, visits, failed)
              && (Faulted(api.script, mid) == Faulted(api.script, api.clock) ==> ChildrenOf(api.Now(), g, gb, r.active))
    ensures api.meddling == old(api.meddling) && api.faults == old(api.faults) ==>
              && failed == {}
              && ChildrenExact(api.Now(), g, gb)
              && StatusExact(api.Now(), g, gb, NewStatus(r.active, r.skipped))
    ensures api.meddling == old(api.meddling) && api.faults == old(api.faults) &&
            old(AlreadyConverged(api.Now(), g, gb)) ==>
              && api.Now() == old(api.Now()) && api.log == old(api.log)
              && NewStatus(r.active, r.skipped) == gb.status
  {
    ghost var s0, log0 := api.Now(), api.log;
    if AlreadyConverged(s0, g, gb) {
      ConvergedIsSettled(s0, g, gb, desired);
    }
    var active, skipped;
    active, skipped, conflict, failed, visits := ProcessNamespaces(api, g, gb, desired);
    ghost var s1, log1 := api.Now(), api.log;
    mid := api.clock;
    if api.meddling == old(api.meddling) && api.faults == old(api.faults) && AlreadyConverged(s0, g, gb) {
      ConvergedHasNothingStale(s0, g, gb, desired, active, skipped);
    }
    CleanupStaleChildren(api, g, active);
    TracedTransitive(api.script, api.start, s0, |log0|, s1, log1, api.Now(), api.log, g);
    var active' := SortStrings(active);
    var skipped' := SortStrings(skipped);
    CountsGrow(api.script, mid, api.clock);
    if api.meddling == old(api.meddling) {
      KeptTransitive(s0, s1, api.Now(), g);
      ProgressLists(s0, s1, g, gb, desired, active, skipped, failed, active', skipped');
      if Faulted(api.script, mid) == Faulted(api.script, api.clock) {
        CleanedUp(s0, s1, api.Now(), g, gb, desired, active, skipped, failed, active');
        if failed == {} {
          NothingFailed(s0, api.Now(), g, gb, active', skipped');
        }
      }
    }
    r := Settlement(active', skipped');
  }

  /** Users put an unlabelled boost under the child name of `g` in some namespace at one of these times. */
  ghost predicate SwapSeen(script: Script, from: nat, to: nat, g: string)
  {
    exists ns :: Swapped(script, from, to, ChildKey(g, ns))
  }

  lemma {:induction false} VisitWithin(visits: seq<Visit>, done: set<string>, from: nat, to: nat, i: nat)
    requires Visited(visits, done, from, to) && i < |visits|
    ensures from <= visits[i].from <= visits[i].to <= to
  {
    var init, v := visits[..|visits| - 1], visits[|visits| - 1];
    if i == |visits| - 1 {
      VisitsOrdered(init, done - {v.ns}, from, v.from);
    } else {
      VisitWithin(init, done - {v.ns}, from, v.from, i);
      assert init[i] == visits[i];
    }
  }

  lemma {:induction false} VisitsOrdered(visits: seq<Visit>, done: set<string>, from: nat, to: nat)
    requires Visited(visits, done, from, to)
    ensures from <= to
  {
    if visits == [] {
    } else {
      var v := visits[|visits| - 1];
      VisitsOrdered(visits[..|visits| - 1], done - {v.ns}, from, v.from);
    }
  }

  lemma SwapInVisitSeen(script: Script, g: string, visits: seq<Visit>, done: set<string>, from: nat, to: nat)
    requires Visited(visits, done, from, to) && SwapInVisit(script, g, visits)
    ensures SwapSeen(script, from, to, g)
  {
    var i :| 0 <= i < |visits| && visits[i].from + 1 < visits[i].to &&
        Swaps(script(visits[i].from + 1), ChildKey(g, visits[i].ns));
    VisitWithin(visits, done, from, to, i);
    assert Swapped(script, from, to, ChildKey(g, visits[i].ns));
  }

  lemma SwapSeenWider(script: Script, from: nat, to: nat, from': nat, to': nat, g: string)
    requires SwapSeen(script, from, to, g) && from' <= from && to <= to'
    ensures SwapSeen(script, from', to', g)
  {
    var ns :| Swapped(script, from, to, ChildKey(g, ns));
    var i :| from <= i < to && Swaps(script(i), ChildKey(g, ns));
    assert Swapped(script, from', to', ChildKey(g, ns));
  }

  /** Nothing differs but children of `g` and `g` itself. */
  ghost predicate OthersKept(s: State, s': State, g: string)
  {
    && Kept(s, s'.(globals := s.globals), g)
    && s'.globals - {g} == s.globals - {g}
  }

  lemma KeptButGlobal(s: State, s': State, s'': State, g: string)
    requires Kept(s, s', g) && s''.namespaces == s'.namespaces && s''.boosts == s'.boosts &&
             s''.globals - {g} == s'.globals - {g}
    ensures OthersKept(s, s'', g)
  {
    var t := s''.(globals := s.globals);
    forall k
      ensures KeptAt(s, t, g, k)
    {
      assert KeptAt(s, s', g, k);
    }
  }

  /** Settles the namespaces, then writes the status. */
  method SettleAndReport(api: ApiServer, g: string, gb: GlobalBoost, desired: set<string>)
      returns (r: Result, conflict: bool)
    requires api.Valid() && g != "" && HasFinalizer(api.Now(), g)
    requires forall ns :: ns in desired <==> Selected(api.Now(), gb, ns)
    modifies api
    ensures api.Valid() && api.clock >= old(api.clock)
    ensures api.meddling >= old(api.meddling) && api.faults >= old(api.faults) && old(api.log) <= api.log
    ensures Traced(api.script, api.start, old(api.Now()), |old(api.log)|, api.Now(), api.log, g)
    ensures conflict ==> SwapSeen(api.script, old(api.clock), api.clock, g)
    ensures api.meddling == old(api.meddling) && old(api.globals)[g] == gb ==>
              && OthersKept(old(api.Now()), api.Now(), g) && !conflict && !r.Requeue?
              && g in api.globals && api.globals[g] == gb.(status := api.globals[g].status)
    ensures api.meddling == old(api.meddling) && api.faults == old(api.faults) && old(api.globals)[g] == gb &&
            !gb.deleting && Parses(gb.namespaceSelector) ==>
              r.Complete? && Converged(api.Now(), g)
    ensures api.meddling == old(api.meddling) && api.faults == old(api.faults) &&
            old(AlreadyConverged(api.Now(), g, gb)) ==>
              api.Now() == old(api.Now()) && api.log == old(api.log)
  {
    ghost var s0, log0, c0 := api.Now(), api.log, api.clock;
    var settled;
    ghost var failed, visits, mid;
    settled, conflict, failed, visits, mid := SettleNamespaces(api, g, gb, desired);
    ghost var s1, log1 := api.Now(), api.log;
    r := WriteStatus(api, g, gb, settled.active, settled.skipped);
    TracedTransitive(api.script, api.start, s0, |log0|, s1, log1, api.Now(), api.log, g);
    if conflict {
      SwapInVisitSeen(api.script, g, visits, desired, c0, mid);
      SwapSeenWider(api.script, c0, mid, c0, api.clock, g);
    }
    if api.meddling == old(api.meddling) && old(api.globals)[g] == gb {
      KeptButGlobal(s0, s1, api.Now(), g);
      if !gb.deleting && Parses(gb.namespaceSelector) && api.faults == old(api.faults) {
        StatusIrrelevant(s1, g, gb, settled.active, settled.skipped);
      }
    }
  }

  /** Distributes one global boost: lists the namespaces and settles them. */
  method Distribute(api: ApiServer, g: string, gb: GlobalBoost) returns (r: Result, conflict: bool)
    requires api.Valid() && g != "" && HasFinalizer(api.Now(), g)
    modifies api
    ensures api.Valid() && api.clock >= old(api.clock)
    ensures api.meddling >= old(api.meddling) && api.faults >= old(api.faults) && old(api.log) <= api.log
    ensures Traced(api.script, api.start, old(api.Now()), |old(api.log)|, api.Now(), api.log, g)
    ensures conflict ==> SwapSeen(api.script, old(api.clock), api.clock, g)
    ensures api.meddling == old(api.meddling) && old(api.globals)[g] == gb ==>
              && OthersKept(old(api.Now()), api.Now(), g) && !conflict && !r.Requeue?
              && g in api.globals && api.globals[g] == gb.(status := api.globals[g].status)
    ensures api.meddling == old(api.meddling) && api.faults == old(api.faults) && old(api.globals)[g] == gb &&
            !gb.deleting && Parses(gb.namespaceSelector) ==>
              r.Complete? && Converged(api.Now(), g)
    ensures api.meddling == old(api.meddling) && api.faults == old(api.faults) &&
            old(AlreadyConverged(api.Now(), g, gb)) ==>
              api.Now() == old(api.Now()) && api.log == old(api.log)
  {
    r, conflict := Errored, false;
    ghost var s0, log0, c0 := api.Now(), api.log, api.clock;
    TracedNothing(api.script, api.start, s0, s0, log0, g);
    KeptButGlobal(s0, s0, s0, g);
    if !Parses(gb.namespaceSelector) {
      return;
    }
    var desired := DesiredNamespaces(api, g, gb);
    ghost var s1, c1 := api.Now(), api.clock;
    TracedNothing(api.script, api.start, s0, s1, log0, g);
    if desired.None? {
      return;
    }
    r, conflict := SettleAndReport(api, g, gb, desired.value);
    TracedTransitive(api.script, api.start, s0, |log0|, s1, log0, api.Now(), api.log, g);
    if conflict {
      SwapSeenWider(api.script, c1, api.clock, c0, api.clock, g);
    }
  }

  /** Removes the children of a global boost that is being deleted, then the finalizer. */
  method HandleDeletion(api: ApiServer, g: string, gb: GlobalBoost) returns (r: Result)
    requires api.Valid() && (gb.finalizer ==> HasFinalizer(api.Now(), g))
    modifies api
    ensures api.Valid() && api.clock >= old(api.clock) && !r.Requeue?
    ensures api.meddling >= old(api.meddling) && api.faults >= old(api.faults) && old(api.log) <= api.log
    ensures Traced(api.script, api.start, old(api.Now()), |old(api.log)|, api.Now(), api.log, g)
    ensures api.meddling == old(api.meddling) && api.faults == old(api.faults) &&
            (gb.finalizer ==> old(api.globals)[g] == gb) ==>
              r.Complete?
    ensures api.meddling == old(api.meddling) ==> OthersKept(old(api.Now()), api.Now(), g)
    ensures r.Complete? && gb.finalizer ==> NoChildren(api.Now(), g) && !HasFinalizer(api.Now(), g)
    ensures !gb.finalizer ==> api.Now() == old(api.Now()) && api.log == old(api.log)
  {
    ghost var s0, log0 := api.Now(), api.log;
    TracedNothing(api.script, api.start, s0, s0, log0, g);
    KeptButGlobal(s0, s0, s0, g);
    if !gb.finalizer {
      return Complete;
    }
    var deleted := DeleteAllChildren(api, g);
    ghost var s1, log1 := api.Now(), api.log;
    if !deleted {
      if api.meddling == old(api.meddling) {
        KeptButGlobal(s0, s1, s1, g);
      }
      return Errored;
    }
    var ok, found := api.RemoveFinalizer(g, gb);
    TracedWrite(api.script, api.start, s1, found, api.Now(), log1, Global(g, gb, TakeFinalizer, api.clock), g);
    TracedTransitive(api.script, api.start, s0, |log0|, s1, log1, api.Now(), api.log, g);
    if api.meddling == old(api.meddling) {
      KeptButGlobal(s0, s1, api.Now(), g);
    }
    assert NoChildren(api.Now(), g) by {
      assert forall k :: ManagedBy(api.Now(), k, g) ==> ManagedBy(found, k, g);
    }
    return if ok then Complete else Errored;
  }

  /** A global boost that is to be distributed. */
  predicate Live(s: State, g: string)
  {
    g in s.globals && !s.globals[g].deleting && Parses(s.globals[g].namespaceSelector)
  }

  /** A global boost that is not being deleted keeps everything but its status and its finalizer. */
  predicate SpecKept(s: State, s': State, g: string)
  {
    g in s.globals && !s.globals[g].deleting ==>
      && g in s'.globals
      && s'.globals[g] == s.globals[g].(status := s'.globals[g].status, finalizer := s'.globals[g].finalizer)
  }

  /** From this time on users do nothing and no call fails. */
  ghost predicate Peace(script: Script, from: nat)
  {
    forall i :: i >= from ==> script(i).users.None? && !script(i).fails
  }

  lemma {:induction false} PeaceCounts(script: Script, from: nat, to: nat)
    requires Peace(script, from) && from <= to
    ensures Meddled(script, to) == Meddled(script, from) && Faulted(script, to) == Faulted(script, from)
  {
    if from == to {
    } else {
      PeaceCounts(script, from, to - 1);
    }
  }

  /** One reconcile request. */
  method Reconcile(api: ApiServer, g: string) returns (r: Result, conflict: bool)
    requires api.Valid()
    modifies api
    ensures api.Valid() && api.clock >= old(api.clock)
    ensures api.meddling >= old(api.meddling) && api.faults >= old(api.faults) && old(api.log) <= api.log
    ensures Peace(api.script, old(api.clock)) ==> api.meddling == old(api.meddling) && api.faults == old(api.faults)
    ensures Traced(api.script, api.start, old(api.Now()), |old(api.log)|, api.Now(), api.log, g)
    ensures conflict ==> SwapSeen(api.script, old(api.clock), api.clock, g)
    ensures api.meddling == old(api.meddling) ==> OthersKept(old(api.Now()), api.Now(), g) && !conflict
    ensures api.meddling == old(api.meddling) ==> SpecKept(old(api.Now()), api.Now(), g)
    ensures api.meddling == old(api.meddling) && api.faults == old(api.faults) && old(Live(api.Now(), g)) ==>
              if old(HasFinalizer(api.Now(), g))
              then r.Complete? && Converged(api.Now(), g)
              else r.Requeue? && Live(api.Now(), g) && HasFinalizer(api.Now(), g)
    ensures api.meddling == old(api.meddling) && api.faults == old(api.faults) && old(Converged(api.Now(), g)) ==>
              api.Now() == old(api.Now()) && api.log == old(api.log)
    ensures api.meddling == old(api.meddling) && api.faults == old(api.faults) &&
            g in old(api.globals) && old(api.globals)[g].deleting ==>
              r.Complete? && NoChildren(api.Now(), g) && !HasFinalizer(api.Now(), g)
    ensures api.meddling == old(api.meddling) && g !in old(api.globals) ==>
              api.Now() == old(api.Now()) && api.log == old(api.log) && !r.Requeue?
  {
    r, conflict := Complete, false;
    ghost var s0, log0, c0 := api.Now(), api.log, api.clock;
    var fetched := api.GetGlobal(g);
    ghost var s1, c1 := api.Now(), api.clock;
    TracedNothing(api.script, api.start, s0, s1, log0, g);
    KeptButGlobal(s0, s0, s0, g);
    match fetched
    case Missing =>
    case Unavailable =>
      r := Errored;
    case Found(gb) =>
      r, conflict := Handle(api, g, gb);
      TracedTransitive(api.script, api.start, s0, |log0|, s1, log0, api.Now(), api.log, g);
      if conflict {
        SwapSeenWider(api.script, c1, api.clock, c0, api.clock, g);
      }
    if Peace(api.script, c0) {
      PeaceCounts(api.script, c0, api.clock);
    }
  }

  /** A reconcile of the global boost that was fetched. */
  method Handle(api: ApiServer, g: string, gb: GlobalBoost) returns (r: Result, conflict: bool)
    requires api.Valid() && g in api.globals && api.globals[g] == gb
    modifies api
    ensures api.Valid() && api.clock >= old(api.clock)
    ensures api.meddling >= old(api.meddling) && api.faults >= old(api.faults) && old(api.log) <= api.log
    ensures Traced(api.script, api.start, old(api.Now()), |old(api.log)|, api.Now(), api.log, g)
    ensures conflict ==> SwapSeen(api.script, old(api.clock), api.clock, g)
    ensures api.meddling == old(api.meddling) ==> OthersKept(old(api.Now()), api.Now(), g) && !conflict
    ensures api.meddling == old(api.meddling) ==> SpecKept(old(api.Now()), api.Now(), g)
    ensures api.meddling == old(api.meddling) && api.faults == old(api.faults) && old(Live(api.Now(), g)) ==>
              if old(HasFinalizer(api.Now(), g))
              then r.Complete? && Converged(api.Now(), g)
              else r.Requeue? && Live(api.Now(), g) && HasFinalizer(api.Now(), g)
    ensures api.meddling == old(api.meddling) && api.faults == old(api.faults) && old(Converged(api.Now(), g)) ==>
              api.Now() == old(api.Now()) && api.log == old(api.log)
    ensures api.meddling == old(api.meddling) && api.faults == old(api.faults) && gb.deleting ==>
              r.Complete? && NoChildren(api.Now(), g) && !HasFinalizer(api.Now(), g)
  {
    conflict := false;
    if gb.deleting {
      r := HandleDeletion(api, g, gb);
    } else if !gb.finalizer {
      ghost var s0, log0 := api.Now(), api.log;
      var ok, found := api.AddFinalizer(g, gb);
      TracedWrite(api.script, api.start, s0, found, api.Now(), log0, Global(g, gb, PutFinalizer, api.clock), g);
      KeptButGlobal(s0, s0, s0, g);
      if api.meddling == old(api.meddling) {
        KeptButGlobal(s0, s0, api.Now(), g);
      }
      r := if ok then Requeue else Errored;
    } else {
      r, conflict := Distribute(api, g, gb);
    }
  }

  /** A request is worked off with the retry that it asks for after the finalizer was put on. */
  method WorkOff(api: ApiServer, g: string) returns (r: Result)
    requires api.Valid()
    modifies api
    ensures api.Valid()
    ensures api.meddling == old(api.meddling) && api.faults == old(api.faults) && old(Live(api.Now(), g)) ==>
              r.Complete? && Converged(api.Now(), g)
    ensures Peace(api.script, old(api.clock)) ==> api.meddling == old(api.meddling) && api.faults == old(api.faults)
  {
    var conflict;
    r, conflict := Reconcile(api, g);
    if r.Requeue? {
      r, conflict := Reconcile(api, g);
    }
    if Peace(api.script, old(api.clock)) {
      PeaceCounts(api.script, old(api.clock), api.clock);
    }
  }

  // ---------------------------------------------------------------------------
  // What a failed call or a user in between can lead to
  // ---------------------------------------------------------------------------

  /** A turn without users and without failure. */
  const PEACEFUL := Turn(None, false, false, false)

  function FirstFails(i: nat): Turn
  {
    if i == 0 then Turn(None, true, false, false) else PEACEFUL
  }

  lemma {:induction false} FirstFailsCounts(n: nat)
    ensures Meddled(FirstFails, n) == 0 && Faulted(FirstFails, n) == if n == 0 then 0 else 1
  {
    if n == 0 {
    } else {
      FirstFailsCounts(n - 1);
    }
  }

  lemma OneVisit(visits: seq<Visit>, ns: string, from: nat, to: nat)
    requires Visited(visits, {ns}, from, to)
    ensures visits == [Visit(ns, from, to)] && from < to
  {
    var init, v := visits[..|visits| - 1], visits[|visits| - 1];
    assert {ns} - {v.ns} == {};
    assert init == [];
    assert visits == init + [v];
  }

  /**
   In a converged state whose only selected namespace is `ns`, the listing of its boosts
   fails and nothing else: the namespace is not active, and the cleanup deletes its child.
   */
  method FailedCheckDeletesChild(s: State, g: string, gb: GlobalBoost, ns: string) returns (api: ApiServer)
    requires Inv(s) && AlreadyConverged(s, g, gb) && g != ""
    requires !Foreign(s, g, ns) && forall n :: Selected(s, gb, n) <==> n == ns
    ensures fresh(api) && ManagedBy(s, ChildKey(g, ns), g) && !ManagedBy(api.Now(), ChildKey(g, ns), g)
    ensures api.meddling == 0 && api.faults == 1
  {
    assert Desired(s, g, gb, ns);
    api := new ApiServer(s, FirstFails);
    var r, conflict, failed, visits, mid := SettleNamespaces(api, g, gb, {ns});
    OneVisit(visits, ns, 0, mid);
    FirstFailsCounts(0);
    FirstFailsCounts(mid);
    FirstFailsCounts(api.clock);
  }

  function SwapsSecond(s: State, i: nat): Turn
  {
    if i == 1 then Turn(Some(s), false, false, false) else PEACEFUL
  }

  /**
   In a skipped namespace users replace the child by a boost of their own between the
   read and the deletion: that boost is deleted.
   */
  method SwappedChildIsDeleted(s: State, g: string, ns: string, b: Boost) returns (api: ApiServer)
    requires Inv(s) && HasFinalizer(s, g) && ManagedBy(s, ChildKey(g, ns), g) && b.managedBy.None?
    ensures fresh(api)
    ensures var swapped := s.(boosts := s.boosts[ChildKey(g, ns) := b]);
            UserMay(s, swapped) && api.Now() == swapped.(boosts := swapped.boosts - {ChildKey(g, ns)})
  {
    var swapped := s.(boosts := s.boosts[ChildKey(g, ns) := b]);
    api := new ApiServer(s, (i: nat) => SwapsSecond(swapped, i));
    DeleteChildIfExists(api, g, ns);
  }

  /**
   In a namespace without foreign boosts users put a boost of their own under the child
   name between the listing and the get: the namespace fails with a conflict.
   */
  method SwapLeadsToConflict(s: State, g: string, gb: GlobalBoost, ns: string, b: Boost) returns (r: Outcome)
    requires Inv(s) && g != "" && HasFinalizer(s, g) && !Foreign(s, g, ns) && b.managedBy.None?
    ensures r == Failed(true)
  {
    var swapped := s.(boosts := s.boosts[ChildKey(g, ns) := b]);
    var api := new ApiServer(s, (i: nat) => SwapsSecond(swapped, i));
    r := ProcessNamespace(api, g, gb, ns);
  }
}
